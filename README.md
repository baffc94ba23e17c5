# Confirm-transaction container and legacy gas-price input, in Dafny

This project models two pieces of the wallet's transaction-confirmation UI.

- The confirmation screen's container
  (`ui/pages/confirm-transaction-base/confirm-transaction-base.container.js`).
  - `mapStateToProps` derives the screen's props from the store. It finds
    the unapproved transaction being confirmed. It picks the parameters that
    gas, sender, recipient, value and data are read from. It resolves the
    recipient's display name through identities, the token list (re-keyed
    in lower case when token detection is off) and the shortened checksum
    address. It filters the unapproved transactions down to the current
    network and counts them. It merges the confirmation's `txData` with the
    found transaction and the custom data. It decides the fee mode and the
    layer-1 total on Optimism. Along the way it writes
    `txData.simulationFails` and the module-level `customNonceValue`.
  - The module keeps one mutable cell, `customNonceValue`. Both
    `mapStateToProps` and `updateCustomNonce` write it, and
    `sendTransaction` reads it through `customNonceMerge`.
  - `mergeProps` lets the screen's own props override the state props. It
    adds `cancelAllTransactions`, which cancels the values of *all* unapproved
    transactions, and `updateGasAndCalculate`.
- The legacy gas-price input hook `useGasPriceInput`, as its tests
  (`ui/hooks/gasFeeInput/useGasPriceInput.test.js`) pin it down. A manual
  entry wins. Otherwise a transaction at fee level `custom` shows its own
  price, converted from hex wei to GWEI. Otherwise the requested tier of a
  legacy estimate set is shown. Any other estimate set gives the string `'0'`.

Files:

- `js_values.dfy` (module `JsValues`) holds the JavaScript conventions the
  container relies on. A missing field is `None`. Strings are truthy when
  non-empty, and `||` follows that. A plain object is its entries in
  enumeration order. `reduce` with spread re-keys an object, and a later
  entry wins when two keys collide.
- `confirm_transaction_base.dfy` (module `ConfirmTransactionBase`) holds the
  container. `StateProps` is the specification of `mapStateToProps`. The
  class `Container` owns the nonce cell. Its `MapStateToProps` method computes
  the same values with statements and is proved equal to `StateProps`.
- `gas_price_input.dfy` (module `GasPriceInput`) holds the hook. `Resolve`
  is the returned price. The class `GasPriceInputHook` holds the hook state
  that its two setters change.

Behaviour of the source the model keeps and proves:

- `transaction` is `find(...) || {}`, so it is never falsy.
  `transactionStatus` is therefore always `transaction.status`, which is
  undefined when nothing was found. The `''` branch cannot be taken
  (`StatusAbsentWithoutMatch`).
- `supportsEIP1559` tests `isLegacyTransaction` on the confirmation's own
  `txParams`, not on the found transaction's.
- Within the same call, the write to `txData.simulationFails` never shows
  in `fullTxData`. The found transaction is spread after `txData`, so its
  own `simulationFails` already wins (`SimulationFailureWriteIsInvisible`).
  In a later call the write does show: when that call's found transaction
  has no `simulationFails` (none is found, or the one found has none), the
  recorded failure is spread into `fullTxData`
  (`SimulationFailureOutlivesTheCall`).
- "Reject all" cancels every unapproved transaction, including those of
  other networks. The count passed along covers only the current network.
  The two agree exactly when every unapproved transaction belongs to the
  current network (`CancelAllCoversEveryNetwork`).
- With token detection off, a recipient address with an upper-case letter
  can never match a token (`MixedCaseMissesLowercasedList`).

## Model

| member | source | states |
|---|---|---|
| JsValues.Values | ui/pages/confirm-transaction-base/confirm-transaction-base.container.js:301 | `valuesFor(obj)` keeps every value of the object, in enumeration order, and nothing else |
| JsValues.DistinctEntriesCount | ui/pages/confirm-transaction-base/confirm-transaction-base.container.js:151 | an object with distinct keys has as many distinct entries as entries |
| JsValues.Lower | ui/pages/confirm-transaction-base/confirm-transaction-base.container.js:117 | lower-casing keeps the length and lower-cases each character independently |
| JsValues.LowerIdempotent | ui/pages/confirm-transaction-base/confirm-transaction-base.container.js:117 | lower-casing an already lower-cased key changes nothing |
| JsValues.Rekey | ui/pages/confirm-transaction-base/confirm-transaction-base.container.js:114-119 | the re-keyed object has a key for every entry's new key |
| JsValues.RekeyOnlyWrittenKeys | ui/pages/confirm-transaction-base/confirm-transaction-base.container.js:114-119 | every key of the re-keyed object is the new key of some entry |
| JsValues.RekeyMisses | ui/pages/confirm-transaction-base/confirm-transaction-base.container.js:114-119 | a key no entry was written to is absent from the re-keyed object |
| JsValues.RekeyLastWrite | ui/pages/confirm-transaction-base/confirm-transaction-base.container.js:114-119 | a key holds the value of the last entry written to it (later spread wins) |
| JsValues.RekeyInjective | ui/pages/confirm-transaction-base/confirm-transaction-base.container.js:114-119 | when no new keys collide, every entry survives under its new key with its value |
| JsValues.RekeyIdentity | ui/pages/confirm-transaction-base/confirm-transaction-base.container.js:112-113 | re-keying by the key itself yields exactly the original object: the same keys and the same values |
| ConfirmTransactionBase.Spread | ui/pages/confirm-transaction-base/confirm-transaction-base.container.js:162 | each field the overlaid transaction has is its own, and each field it lacks is the underlying one's; other fields are the union, with the overlay winning |
| ConfirmTransactionBase.SpreadUnit | ui/pages/confirm-transaction-base/confirm-transaction-base.container.js:162 | spreading an empty object on either side leaves a transaction unchanged |
| ConfirmTransactionBase.FullTxData | ui/pages/confirm-transaction-base/confirm-transaction-base.container.js:162-171 | the found transaction's fields win over `txData`'s. With truthy custom data, `txParams` exists and its `data` is that text. Without custom data the result is exactly `txData` overlaid by the found transaction |
| ConfirmTransactionBase.CustomDataOnlyReplacesData | ui/pages/confirm-transaction-base/confirm-transaction-base.container.js:163-171 | custom data changes `txParams.data` and no other field of the merged transaction or of its parameters |
| ConfirmTransactionBase.MergeTxData | ui/pages/confirm-transaction-base/confirm-transaction-base.container.js:162-171 | the spread followed by the conditional rebinding computes `FullTxData` |
| ConfirmTransactionBase.RecordSimulationFailure | ui/pages/confirm-transaction-base/confirm-transaction-base.container.js:142-144 | only `simulationFails` changes, and it takes the found transaction's value when that has one |
| ConfirmTransactionBase.SimulationFailureWriteIsInvisible | ui/pages/confirm-transaction-base/confirm-transaction-base.container.js:142-171 | within the same call, the in-place `simulationFails` write never changes the merged `fullTxData` |
| ConfirmTransactionBase.SimulationFailureOutlivesTheCall | ui/pages/confirm-transaction-base/confirm-transaction-base.container.js:142-171 | a later call whose `txData` carries the write and whose found transaction has no `simulationFails` (none found, or none recorded on it) shows the recorded failure in `fullTxData` |
| ConfirmTransactionBase.TargetId | ui/pages/confirm-transaction-base/confirm-transaction-base.container.js:94 | the id looked up is the confirmation's id when truthy (present and non-zero), and otherwise (absent or zero) exactly the route's id |
| ConfirmTransactionBase.FindIndex | ui/pages/confirm-transaction-base/confirm-transaction-base.container.js:92-95 | `find` stops at the first transaction with the target id. None means no transaction has it, and a missing or NaN target matches nothing |
| ConfirmTransactionBase.FoundTransaction | ui/pages/confirm-transaction-base/confirm-transaction-base.container.js:92-95 | a non-empty result is an unapproved transaction with the target id. If any transaction has that id, the result has it |
| ConfirmTransactionBase.SourceParams | ui/pages/confirm-transaction-base/confirm-transaction-base.container.js:103 | the parameters read are the found transaction's `txParams` when it has them, else the confirmation's, else `{}` |
| ConfirmTransactionBase.FoundIsFirstMatch | ui/pages/confirm-transaction-base/confirm-transaction-base.container.js:92-95 | of several transactions with the target id, the earliest in enumeration order is found |
| ConfirmTransactionBase.MatchingEntries | ui/pages/confirm-transaction-base/confirm-transaction-base.container.js:146-150 | the filtered object holds exactly the entries whose transaction matches, is no larger, and has distinct keys when the input does |
| ConfirmTransactionBase.MatchingCountIsTotalIff | ui/pages/confirm-transaction-base/confirm-transaction-base.container.js:146-151 | the filtered count equals the total exactly when every transaction matches |
| ConfirmTransactionBase.MatchingCountIsNumberOfMatches | ui/pages/confirm-transaction-base/confirm-transaction-base.container.js:146-151 | in an object with distinct keys, the filtered count is the number of matching transactions |
| ConfirmTransactionBase.CasedTokenList | ui/pages/confirm-transaction-base/confirm-transaction-base.container.js:112-119 | with detection on every key is present as is; with detection off every key is present lower-cased and every key of the list is lower-case |
| ConfirmTransactionBase.RecipientName | ui/pages/confirm-transaction-base/confirm-transaction-base.container.js:120-123 | the identity's name when truthy, else the token's name when truthy, else the shortened checksum address |
| ConfirmTransactionBase.MixedCaseMissesLowercasedList | ui/pages/confirm-transaction-base/confirm-transaction-base.container.js:110-123 | with token detection off, an address containing an upper-case letter finds no token name |
| ConfirmTransactionBase.UnlistedAddressFindsNoToken | ui/pages/confirm-transaction-base/confirm-transaction-base.container.js:110-123 | an address that no token-list key becomes (as is with detection on, lower-cased with detection off) finds no token |
| ConfirmTransactionBase.LowercasedListFindsToken | ui/pages/confirm-transaction-base/confirm-transaction-base.container.js:110-123 | with token detection off, a lower-case address finds the token of the last key that lower-cases to it |
| ConfirmTransactionBase.DetectedListFindsToken | ui/pages/confirm-transaction-base/confirm-transaction-base.container.js:110-123 | with token detection on, an address finds the token stored under exactly that key |
| ConfirmTransactionBase.Recipient | ui/pages/confirm-transaction-base/confirm-transaction-base.container.js:108-128 | `toAddress` is the own prop when truthy, else the source parameters' `to`. `toName` follows the name precedence. `toEns` is the resolution of the checksummed address or `''`. `toNickname` is the address-book entry's name when there is one, else `''` |
| ConfirmTransactionBase.Queue | ui/pages/confirm-transaction-base/confirm-transaction-base.container.js:146-151 | the current-network object holds exactly the unapproved entries on this chain and network. The count is its size and at most the total, and it has distinct keys when `unapprovedTxs` does |
| ConfirmTransactionBase.FeeMode | ui/pages/confirm-transaction-base/confirm-transaction-base.container.js:130-178 | EIP-1559 is used iff the network and account support it and the confirmation's own params are not legacy. `noGasPrice` holds iff not EIP-1559 and no price was fetched. The fee is custom iff the level is `custom` or the dapp suggested it |
| ConfirmTransactionBase.Layer | ui/pages/confirm-transaction-base/confirm-transaction-base.container.js:187-193 | the network is standard iff it is not Optimism. A multilayer total exists iff on Optimism, and it is the minimum fee plus exactly the layer-1 fee |
| ConfirmTransactionBase.ComputeLayer | ui/pages/confirm-transaction-base/confirm-transaction-base.container.js:187-193 | the statements assigning `multilayerTotal` only off the standard network compute `Layer` |
| ConfirmTransactionBase.StateProps | ui/pages/confirm-transaction-base/confirm-transaction-base.container.js:67-248 | props exist iff the sender has both an account and an identity. A missing account is reported first. Otherwise the result is the screen's props |
| ConfirmTransactionBase.ScreenProps | ui/pages/confirm-transaction-base/confirm-transaction-base.container.js:195-247 | the sender's address, balance and name come from the sender's entries; `transactionStatus` is the found transaction's status; `type` is the confirmation's; `customNonceValue` is the store's; `txData` is the merged transaction; the recipient, queue, fee-mode and layer props are those of their own functions over the found transaction's fees; `customGas` is the source parameters' gas and gas price; `insufficientBalance` is the negation of `isBalanceSufficient` on the source value, the gas total of the source gas and gas price, the sender's balance and the conversion rate |
| ConfirmTransactionBase.CountIsCurrentNetworkTransactions | ui/pages/confirm-transaction-base/confirm-transaction-base.container.js:146-151 | the unapproved-transaction count is the number of unapproved transactions on the current chain and network |
| ConfirmTransactionBase.StatusAbsentWithoutMatch | ui/pages/confirm-transaction-base/confirm-transaction-base.container.js:129 | with no unapproved transaction of the target id, `transactionStatus` is absent, never the `''` fallback |
| ConfirmTransactionBase.NoGasPriceOnlyForLegacy | ui/pages/confirm-transaction-base/confirm-transaction-base.container.js:174 | a missing gas price is never reported together with EIP-1559 support |
| ConfirmTransactionBase.MultilayerTotalAddsL1Fee | ui/pages/confirm-transaction-base/confirm-transaction-base.container.js:190-193 | on Optimism the total is the found transaction's minimum fee plus its layer-1 fee, never below the minimum fee. Elsewhere there is no total |
| ConfirmTransactionBase.GasFeeIsCustomSource | ui/pages/confirm-transaction-base/confirm-transaction-base.container.js:176-178 | without dapp suggestion, the fee is custom iff the found transaction's level is `custom`, or the confirmation's level when the found one has none |
| ConfirmTransactionBase.CustomGasSource | ui/pages/confirm-transaction-base/confirm-transaction-base.container.js:96-103 | the editable gas limit and price come from the found transaction's params when it has them, else from the confirmation's |
| ConfirmTransactionBase.Container.constructor | ui/pages/confirm-transaction-base/confirm-transaction-base.container.js:58 | the nonce cell starts empty |
| ConfirmTransactionBase.Container.MapStateToProps | ui/pages/confirm-transaction-base/confirm-transaction-base.container.js:67-248 | the statements compute `StateProps`. On success the cell holds the store's custom nonce, and `txData` carries the found `simulationFails`. A thrown error leaves the cell and `txData` untouched |
| ConfirmTransactionBase.Container.UpdateCustomNonce | ui/pages/confirm-transaction-base/confirm-transaction-base.container.js:255-258 | the cell holds the value given |
| ConfirmTransactionBase.Container.CustomNonceMerge | ui/pages/confirm-transaction-base/confirm-transaction-base.container.js:59-65 | a non-empty cell sets `customNonceValue` to its value. An empty cell leaves the transaction as it is. No other field changes |
| ConfirmTransactionBase.Container.SendTransaction | ui/pages/confirm-transaction-base/confirm-transaction-base.container.js:273-274 | the approved transaction carries the cell's nonce when the cell is non-empty, else its own nonce |
| ConfirmTransactionBase.SendAfterNonceEdit | ui/pages/confirm-transaction-base/confirm-transaction-base.container.js:255-274 | a nonce typed after rendering is the one sent, unless it is empty. Nothing else of the transaction changes |
| ConfirmTransactionBase.MergeProps | ui/pages/confirm-transaction-base/confirm-transaction-base.container.js:287-299 | the own `toAddress` overrides the state's when given. Every other state prop is kept, and the custom data is passed along |
| ConfirmTransactionBase.CancelAllTransactions | ui/pages/confirm-transaction-base/confirm-transaction-base.container.js:300-301 | the list cancelled is every unapproved transaction, of all networks, in order |
| ConfirmTransactionBase.UpdateGasAndCalculate | ui/pages/confirm-transaction-base/confirm-transaction-base.container.js:302-308 | the update carries the given limit and price, the merged `txData` and `expectHexWei` |
| ConfirmTransactionBase.CancelAllCoversEveryNetwork | ui/pages/confirm-transaction-base/confirm-transaction-base.container.js:300-301 | every transaction counted for the current network is cancelled. The cancelled list is at least the count, and equal iff all transactions are on this network |
| GasPriceInput.WeiToGwei | ui/hooks/gasFeeInput/useGasPriceInput.test.js:30-40 | the GWEI amount times 10^9 is the wei amount, and is never negative |
| GasPriceInput.Resolve | ui/hooks/gasFeeInput/useGasPriceInput.test.js:30-96 | a manual entry wins. Next, a `custom` transaction's own price in GWEI. Next, the requested tier of a legacy set. Otherwise `'0'` |
| GasPriceInput.NumberOnlyFromUserOrTransaction | ui/hooks/gasFeeInput/useGasPriceInput.test.js:30-96 | a number is returned iff there is a manual entry or a custom transaction price. Every estimate and the sentinel are strings |
| GasPriceInput.ManualEntryIgnoresEverythingElse | ui/hooks/gasFeeInput/useGasPriceInput.test.js:87-96 | with a manual entry, the transaction, the estimates and the tier make no difference |
| GasPriceInput.CustomTxIgnoresEstimates | ui/hooks/gasFeeInput/useGasPriceInput.test.js:30-40 | a custom transaction's price makes the estimates and the tier irrelevant |
| GasPriceInput.TierIgnoresTransactionPrice | ui/hooks/gasFeeInput/useGasPriceInput.test.js:42-55 | at a non-custom level, the transaction's own gas price makes no difference: the result is as with no transaction |
| GasPriceInput.GasPriceInputHook.constructor | ui/hooks/gasFeeInput/useGasPriceInput.test.js:88-90 | a fresh hook has no manual flag and no typed price |
| GasPriceInput.GasPriceInputHook.CurrentGasPrice | ui/hooks/gasFeeInput/useGasPriceInput.test.js:95 | with the flag set and a typed price, the hook returns that price. It is `Resolve` of the hook's state |
| GasPriceInput.GasPriceInputHook.SetGasPriceHasBeenManuallySet | ui/hooks/gasFeeInput/useGasPriceInput.test.js:92 | sets the flag and keeps the typed price |
| GasPriceInput.GasPriceInputHook.SetGasPrice | ui/hooks/gasFeeInput/useGasPriceInput.test.js:93 | sets the typed price and keeps the flag |
| GasPriceInput.CustomLevelScenario | ui/hooks/gasFeeInput/useGasPriceInput.test.js:30-40 | a `custom` transaction at 0x5028 wei gives the number 0.00002052, whatever the estimates and tier |
| GasPriceInput.NonCustomLevelScenario | ui/hooks/gasFeeInput/useGasPriceInput.test.js:42-55 | level `high` with price 0x5028 still gives the legacy `high` estimate `'30'` |
| GasPriceInput.DefaultTierScenario | ui/hooks/gasFeeInput/useGasPriceInput.test.js:57-65 | tier `medium` gives `'20'` |
| GasPriceInput.HighTierScenario | ui/hooks/gasFeeInput/useGasPriceInput.test.js:67-75 | tier `high` gives `'30'` |
| GasPriceInput.FeeMarketScenario | ui/hooks/gasFeeInput/useGasPriceInput.test.js:77-85 | any fee-market set gives the string `'0'`, not an error |
| GasPriceInput.ManualOverrideScenario | ui/hooks/gasFeeInput/useGasPriceInput.test.js:87-96 | before the setters the hook shows the `medium` estimate (or `'0'`). After the flag is set and 100 is typed, it returns the number 100 |

## Left out

- The Redux wiring (`connect`, `compose`, `withRouter`) and every dispatch other than those modelled. Only the payload handed to each dispatch is modelled.
- `tryReverseResolveAddress`, `clearConfirmTransaction`, the modals, `cancelTransaction`, `getNextNonce`, `setDefaultHomeActiveTabName` and `fetchOptimismL1Fee`: each only forwards to an action creator that is not part of this model.
- Props computed from selectors or state fields alone, and not used by any modelled prop, are not modelled: `tokenData`, `tokenProps`, `methodData`, `nonce`, `nextNonce`, the passthrough prop `conversionRate` (the rate itself is modelled, as an input of `insufficientBalance`), `advancedInlineGasShown`, `useNonceField`, `hideSubtitle`, `hideFiatConversion`, `mostRecentOverviewPage`, `isMainnet`, `isEthGasPrice`, `gasIsLoading`, `useNativeCurrencyAsPrimaryCurrency`, `showLedgerSteps`, `nativeCurrency` and `hardwareWalletRequiresConnection`. Each is a state field, a selector's value, a negation or `||` of selectors' values, or a selector applied to `fromAddress` or `data`; the selectors are not part of this model.
- The selectors and helpers are not part of this model: `transactionFeeSelector`, `transactionMatchesNetwork`, `txParamsAreDappSuggested`, `isLegacyTransaction`, `toChecksumHexAddress`, `shortenAddress`, `isBalanceSufficient`, `calcGasTotal` and `checkNetworkAndAccountSupports1559`. They are arbitrary total functions (the `Helpers` record), or values already selected (fields of `State`).
- `addHexes` is modelled as addition of the hex values as natural numbers. Hex strings and their formatting are not modelled.
- ConfirmTransactionBase.StateProps: does not model a lookup under the key `"undefined"` when the sender's `from` is absent. An absent sender is treated as having no account, so the result is `MissingAccount`.
- ConfirmTransactionBase.Recipient: does not model a lookup under the key `"undefined"` when `toAddress` is absent. An absent address finds no identity and no token; the address-book and ENS lookups use the checksum helper's value for the absent address, as the source does.
- ConfirmTransactionBase.MergeProps: the own props are modelled as `toAddress` and `customTxParamsData` only. An own `toAddress` key that is present but `undefined` is treated like an absent one.
- ConfirmTransactionBase.Container.MapStateToProps: the write to `txData.simulationFails` is returned as a new value. The model does not capture that the store object is shared with other readers; a later render sees the write only when it is given the returned `txData` (as `SimulationFailureOutlivesTheCall` does).
- The returned props are grouped into sub-records (recipient, fees, queue, fee mode, layer), not one flat object.
- Lower-casing covers ASCII letters only. Token-list keys are hex addresses.
- ConfirmTransactionBase.Queue: the count is pinned to the number of matching transactions only for an `unapprovedTxs` with distinct keys, which every JavaScript object has; the model's entry sequence does not enforce it.
- GasPriceInput.WeiToGwei: uses exact rationals, not IEEE-754 doubles. The strings and 100 are exact in both. 0.00002052 is not a double; the test compares the double nearest to it, and the model uses the exact rational 20520/10^9.
- GasPriceInput.Resolve: the hook's source is not part of this model; its behaviour is taken from its tests. Where the tests are silent, the order is: manual entry (flag set and a value typed), then custom transaction with a price, then legacy tier, then `'0'`. The fixtures `LEGACY_GAS_ESTIMATE_RETURN_VALUE` and `FEE_MARKET_ESTIMATE_RETURN_VALUE` are not part of this model. Their `medium`/`high` values `'20'`/`'30'` are taken from the expectations, and the `low` value is left arbitrary.
- GasPriceInput.Resolve: there is no fallback to `medium` for an absent tier, no error for an empty fee-market set and no malformed-number error, because the hook's tests show a fee-market set yielding `'0'` (ui/hooks/gasFeeInput/useGasPriceInput.test.js:77-85).
- The hook's other outputs, and `useGasFeeEstimates` and `useSelector`, which the tests mock, are not modelled.
