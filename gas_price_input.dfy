/** The legacy gas price the gas-fee input hook `useGasPriceInput` returns,
    as far as its tests pin it down: a manual entry, the transaction's own
    price when its fee level is `custom`, the requested tier of a legacy
    estimate set, or the string `'0'` for any other estimate set. Amounts
    are exact: a hex wei gas price becomes the rational wei / 10^9 GWEI. */
module GasPriceInput {
  import opened JsValues

  const WeiPerGwei: nat := 1_000_000_000

  /** The estimate tiers (`GAS_RECOMMENDATIONS`). */
  datatype Tier = Low | Medium | High

  /** A legacy estimate set: a decimal GWEI string per tier. */
  datatype LegacyEstimates = LegacyEstimates(low: string, medium: string, high: string)

  /** One tier of a fee-market estimate set, in decimal GWEI. */
  datatype FeeMarketTier = FeeMarketTier(suggestedMaxFeePerGas: string, suggestedMaxPriorityFeePerGas: string)

  /** The estimates the hook is given: a legacy set, a fee-market set, or none. */
  datatype Estimates =
    | Legacy(legacy: LegacyEstimates)
    | FeeMarket(low: FeeMarketTier, medium: FeeMarketTier, high: FeeMarketTier, estimatedBaseFee: string)
    | NoEstimates

  /** The transaction handed to the hook: its `userFeeLevel` and its
      `txParams.gasPrice` in wei. */
  datatype HookTx = HookTx(userFeeLevel: Option<string>, gasPrice: Option<nat>)

  /** What the hook returns as `gasPrice`: a JavaScript number of GWEI
      (here an exact rational) or a decimal GWEI string. */
  datatype GasPrice = Gwei(amount: real) | Text(decimal: string)

  /** The hook's state: whether the user typed a price, and the typed price. */
  datatype Override = Override(manuallySet: bool, gasPrice: Option<real>)

  const NoOverride := Override(false, None)

  /** `hexWEIToDecGWEI`: wei / 10^9, exactly. */
  function WeiToGwei(wei: nat): (g: real)
    ensures g * WeiPerGwei as real == wei as real
    ensures g >= 0.0
  {
    wei as real / WeiPerGwei as real
  }

  function TierEstimate(e: LegacyEstimates, tier: Tier): string {
    match tier
    case Low => e.low
    case Medium => e.medium
    case High => e.high
  }

  /** The user typed a price and it is to be kept. */
  predicate Manual(o: Override) {
    o.manuallySet && o.gasPrice.Some?
  }

  /** The transaction's fee level is `custom` and it declares a gas price. */
  predicate CustomTx(tx: Option<HookTx>) {
    tx.Some? && tx.value.userFeeLevel == Some("custom") && tx.value.gasPrice.Some?
  }

  /** The `gasPrice` the hook returns. */
  function Resolve(o: Override, tx: Option<HookTx>, estimates: Estimates, tier: Tier): (r: GasPrice)
    ensures Manual(o) ==> r == Gwei(o.gasPrice.value)
    ensures !Manual(o) && CustomTx(tx) ==> r == Gwei(WeiToGwei(tx.value.gasPrice.value))
    ensures !Manual(o) && !CustomTx(tx) && estimates.Legacy? ==> r == Text(TierEstimate(estimates.legacy, tier))
    ensures !Manual(o) && !CustomTx(tx) && !estimates.Legacy? ==> r == Text("0")
  {
    if Manual(o) then Gwei(o.gasPrice.value)
    else if CustomTx(tx) then Gwei(WeiToGwei(tx.value.gasPrice.value))
    else if estimates.Legacy? then Text(TierEstimate(estimates.legacy, tier))
    else Text("0")
  }

  /** A number comes back only from a manual entry or a custom transaction;
      every estimate, and the no-estimate sentinel, comes back as text. */
  lemma NumberOnlyFromUserOrTransaction(o: Override, tx: Option<HookTx>, estimates: Estimates, tier: Tier)
    ensures Resolve(o, tx, estimates, tier).Gwei? <==> Manual(o) || CustomTx(tx)
  {
  }

  /** A manual entry wins whatever the transaction, the estimates and the tier. */
  lemma ManualEntryIgnoresEverythingElse(o: Override, tx1: Option<HookTx>, tx2: Option<HookTx>,
                                         e1: Estimates, e2: Estimates, t1: Tier, t2: Tier)
    requires Manual(o)
    ensures Resolve(o, tx1, e1, t1) == Resolve(o, tx2, e2, t2)
  {
  }

  /** A custom transaction's own price ignores the estimates and the tier. */
  lemma CustomTxIgnoresEstimates(o: Override, tx: Option<HookTx>, e1: Estimates, e2: Estimates, t1: Tier, t2: Tier)
    requires !Manual(o) && CustomTx(tx)
    ensures Resolve(o, tx, e1, t1) == Resolve(o, tx, e2, t2)
  {
  }

  /** Without a manual entry or a custom fee level, the transaction's own gas
      price plays no part: the tier estimate wins over it. */
  lemma TierIgnoresTransactionPrice(o: Override, level: Option<string>, p1: Option<nat>, p2: Option<nat>,
                                    estimates: Estimates, tier: Tier)
    requires !Manual(o) && level != Some("custom")
    ensures Resolve(o, Some(HookTx(level, p1)), estimates, tier) == Resolve(o, Some(HookTx(level, p2)), estimates, tier)
    ensures Resolve(o, Some(HookTx(level, p1)), estimates, tier) == Resolve(o, None, estimates, tier)
  {
  }

  // ---------------------------------------------------------------------
  // The hook, as a state holder
  // ---------------------------------------------------------------------

  /** One rendered `useGasPriceInput`: its arguments, and the state its two
      setters change. */
  class GasPriceInputHook {
    const transaction: Option<HookTx>
    const estimates: Estimates
    const estimateToUse: Tier
    var manuallySet: bool
    var gasPrice: Option<real>

    constructor (transaction: Option<HookTx>, estimates: Estimates, estimateToUse: Tier)
      ensures this.transaction == transaction && this.estimates == estimates
      ensures this.estimateToUse == estimateToUse
      ensures !manuallySet && gasPrice == None
    {
      this.transaction := transaction;
      this.estimates := estimates;
      this.estimateToUse := estimateToUse;
      manuallySet := false;
      gasPrice := None;
    }

    /** `result.current.gasPrice`. */
    function CurrentGasPrice(): (r: GasPrice)
      reads this
      ensures manuallySet && gasPrice.Some? ==> r == Gwei(gasPrice.value)
      ensures r == Resolve(Override(manuallySet, gasPrice), transaction, estimates, estimateToUse)
    {
      Resolve(Override(manuallySet, gasPrice), transaction, estimates, estimateToUse)
    }

    /** `setGasPriceHasBeenManuallySet(value)`. */
    method SetGasPriceHasBeenManuallySet(value: bool)
      modifies this
      ensures manuallySet == value && gasPrice == old(gasPrice)
    {
      manuallySet := value;
    }

    /** `setGasPrice(value)`. */
    method SetGasPrice(value: real)
      modifies this
      ensures gasPrice == Some(value) && manuallySet == old(manuallySet)
    {
      gasPrice := Some(value);
    }
  }

  // ---------------------------------------------------------------------
  // The six scenarios of the hook's tests
  // ---------------------------------------------------------------------

  /** A `custom` transaction with gas price 0x5028 wei gives 0.00002052 GWEI. */
  lemma CustomLevelScenario(estimates: Estimates, tier: Tier)
    ensures Resolve(NoOverride, Some(HookTx(Some("custom"), Some(0x5028))), estimates, tier) == Gwei(0.00002052)
  {
  }

  /** A `high` fee level with the same gas price still gives the `high` estimate. */
  lemma NonCustomLevelScenario(low: string)
    ensures Resolve(NoOverride, Some(HookTx(Some("high"), Some(0x5028))),
                    Legacy(LegacyEstimates(low, "20", "30")), High) == Text("30")
  {
  }

  /** No transaction and tier `medium` give the `medium` estimate. */
  lemma DefaultTierScenario(low: string)
    ensures Resolve(NoOverride, None, Legacy(LegacyEstimates(low, "20", "30")), Medium) == Text("20")
  {
  }

  /** No transaction and tier `high` give the `high` estimate. */
  lemma HighTierScenario(low: string)
    ensures Resolve(NoOverride, None, Legacy(LegacyEstimates(low, "20", "30")), High) == Text("30")
  {
  }

  /** A fee-market estimate set gives the string `'0'`, not an error. */
  lemma FeeMarketScenario(low: FeeMarketTier, medium: FeeMarketTier, high: FeeMarketTier, baseFee: string)
    ensures Resolve(NoOverride, None, FeeMarket(low, medium, high, baseFee), Medium) == Text("0")
  {
  }

  /** After the flag is set and 100 is typed, the hook returns 100 GWEI,
      whatever it returned before for tier `medium`. */
  method ManualOverrideScenario(estimates: Estimates) returns (before: GasPrice, after: GasPrice)
    ensures before == if estimates.Legacy? then Text(estimates.legacy.medium) else Text("0")
    ensures after == Gwei(100.0)
  {
    var hook := new GasPriceInputHook(None, estimates, Medium);
    before := hook.CurrentGasPrice();
    hook.SetGasPriceHasBeenManuallySet(true);
    hook.SetGasPrice(100.0);
    after := hook.CurrentGasPrice();
  }
}
