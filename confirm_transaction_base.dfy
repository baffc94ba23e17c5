/** The confirmation screen's container: the projection `mapStateToProps`
    makes from the wallet state to the screen's props, the module-level
    custom-nonce cell, the dispatch props that read and write it, and
    `mergeProps`. Hex wei quantities are naturals. */
module ConfirmTransactionBase {
  import opened JsValues

  // ---------------------------------------------------------------------
  // Data model
  // ---------------------------------------------------------------------

  /** A transaction's `txParams`; `otherParams` holds every parameter the
      container does not read (nonce, fee-market fields, ...) as opaque text. */
  datatype TxParams = TxParams(
    from: Option<string>,
    to: Option<string>,
    gasPrice: Option<nat>,
    gas: Option<nat>,
    value: Option<nat>,
    data: Option<string>,
    otherParams: map<string, string>)

  /** `{}` used as `txParams`. */
  const NoParams := TxParams(None, None, None, None, None, None, map[])

  /** A transaction's `simulationFails` record. It is an object, so it is
      truthy whenever it is present. */
  datatype SimulationFailure = SimulationFailure(fields: map<string, string>)

  /** A transaction record (`txData`, or an entry of `unapprovedTxs`);
      `otherFields` holds every field the container does not read. */
  datatype Tx = Tx(
    id: Option<int>,
    txParams: Option<TxParams>,
    userFeeLevel: Option<string>,
    status: Option<string>,
    txType: Option<string>,
    simulationFails: Option<SimulationFailure>,
    customNonceValue: Option<string>,
    otherFields: map<string, string>)

  /** `{}` used as a transaction. */
  const NoTx := Tx(None, None, None, None, None, None, None, map[])

  datatype Identity = Identity(name: Option<string>)
  datatype TokenInfo = TokenInfo(name: Option<string>)
  datatype AddressBookEntry = AddressBookEntry(name: Option<string>)
  datatype Account = Account(balance: nat)

  /** What `transactionFeeSelector(state, transaction)` returns. */
  datatype FeeFigures = FeeFigures(
    hexTransactionAmount: nat,
    hexMinimumTransactionFee: nat,
    hexEstimatedL1Fee: nat,
    hexMaximumTransactionFee: nat,
    hexTransactionTotal: nat,
    maxFeePerGas: Option<string>,
    maxPriorityFeePerGas: Option<string>,
    baseFeePerGas: Option<string>)

  /** The helpers the container calls but whose code is not part of this
      model, as uninterpreted total functions (selectors already applied to
      the state). */
  datatype Helpers = Helpers(
    transactionFee: Tx -> FeeFigures,                       // transactionFeeSelector
    matchesNetwork: (Tx, string, string) -> bool,           // transactionMatchesNetwork
    dappSuggested: Tx -> bool,                              // txParamsAreDappSuggested
    isLegacy: TxParams -> bool,                             // isLegacyTransaction
    checksum: Option<string> -> string,                     // toChecksumHexAddress
    shorten: string -> string,                              // shortenAddress
    balanceSufficient: (Option<nat>, nat, nat, real) -> bool, // isBalanceSufficient
    gasTotal: (Option<nat>, Option<nat>) -> nat)            // calcGasTotal

  /** The parts of the wallet state the container reads: slices of
      `state.metamask` and `state.confirmTransaction`, and the values of the
      selectors it calls. */
  datatype State = State(
    txData: Tx,                                   // confirmTransaction.txData
    unapprovedTxs: Entries<Tx>,
    identities: map<string, Identity>,
    addressBook: map<string, AddressBookEntry>,
    ensResolutionsByAddress: map<string, string>,
    conversionRate: real,
    network: string,
    chainId: string,
    accounts: map<string, Account>,               // getMetaMaskAccounts
    tokenList: Entries<TokenInfo>,                // getTokenList
    useTokenDetection: bool,                      // getUseTokenDetection
    supports1559: bool,                           // checkNetworkAndAccountSupports1559
    noGasPriceFetched: bool,                      // getNoGasPriceFetched
    customNonceValue: string,                     // getCustomNonceValue
    isOptimism: bool)                             // getIsOptimism

  /** The screen's own props: `toAddress`, `customTxParamsData` and
      `Number(match.params.id)`, where `None` stands for `NaN`. */
  datatype OwnProps = OwnProps(
    toAddress: Option<string>,
    customTxParamsData: Option<string>,
    paramsId: Option<int>)

  datatype CustomGas = CustomGas(gasLimit: Option<nat>, gasPrice: Option<nat>)

  /** The recipient props: `toAddress`, `toEns`, `toName`, `toNickname`. */
  datatype RecipientProps = RecipientProps(
    toAddress: Option<string>,
    toEns: string,
    toName: string,
    toNickname: Option<string>)

  /** The queue props: `unapprovedTxs`, `unapprovedTxCount`, `currentNetworkUnapprovedTxs`. */
  datatype QueueProps = QueueProps(
    unapprovedTxs: Entries<Tx>,
    unapprovedTxCount: nat,
    currentNetworkUnapprovedTxs: Entries<Tx>)

  /** The fee-mode props: `supportsEIP1559`, `noGasPrice`, `gasFeeIsCustom`. */
  datatype FeeModeProps = FeeModeProps(
    supportsEIP1559: bool,
    noGasPrice: bool,
    gasFeeIsCustom: bool)

  /** The layer props: `isOptimism`, `isStandardNetwork`, `multilayerTotal`. */
  datatype LayerProps = LayerProps(
    isOptimism: bool,
    isStandardNetwork: bool,
    multilayerTotal: Option<nat>)

  /** The derived props `mapStateToProps` returns, grouped as above (fields
      copied unchanged from a selector are not modelled). */
  datatype Props = Props(
    balance: nat,
    fromAddress: Option<string>,
    fromName: Option<string>,
    recipient: RecipientProps,
    fees: FeeFigures,
    txData: Tx,
    transactionStatus: Option<string>,
    txType: Option<string>,
    queue: QueueProps,
    customGas: CustomGas,
    customNonceValue: string,
    insufficientBalance: bool,
    feeMode: FeeModeProps,
    layer: LayerProps)

  /** The TypeErrors `mapStateToProps` throws when destructuring a missing
      account or identity of the sender. */
  datatype MapError = MissingAccount | MissingIdentity

  // ---------------------------------------------------------------------
  // Object spread and the merged transaction
  // ---------------------------------------------------------------------

  function Pick<T>(under: Option<T>, over: Option<T>): Option<T> {
    if over.Some? then over else under
  }

  /** `{ ...under, ...over }` on transactions: a field present in `over`
      is `over`'s, and a field absent from it is `under`'s. */
  function Spread(under: Tx, over: Tx): (r: Tx)
    ensures over.id.Some? ==> r.id == over.id
    ensures over.id.None? ==> r.id == under.id
    ensures over.txParams.Some? ==> r.txParams == over.txParams
    ensures over.txParams.None? ==> r.txParams == under.txParams
    ensures over.userFeeLevel.Some? ==> r.userFeeLevel == over.userFeeLevel
    ensures over.userFeeLevel.None? ==> r.userFeeLevel == under.userFeeLevel
    ensures over.status.Some? ==> r.status == over.status
    ensures over.status.None? ==> r.status == under.status
    ensures over.txType.Some? ==> r.txType == over.txType
    ensures over.txType.None? ==> r.txType == under.txType
    ensures over.simulationFails.Some? ==> r.simulationFails == over.simulationFails
    ensures over.simulationFails.None? ==> r.simulationFails == under.simulationFails
    ensures over.customNonceValue.Some? ==> r.customNonceValue == over.customNonceValue
    ensures over.customNonceValue.None? ==> r.customNonceValue == under.customNonceValue
    ensures forall k :: k in r.otherFields <==> k in under.otherFields || k in over.otherFields
    ensures forall k :: k in over.otherFields ==> r.otherFields[k] == over.otherFields[k]
    ensures forall k :: k in under.otherFields && k !in over.otherFields ==> r.otherFields[k] == under.otherFields[k]
  {
    Tx(Pick(under.id, over.id),
       Pick(under.txParams, over.txParams),
       Pick(under.userFeeLevel, over.userFeeLevel),
       Pick(under.status, over.status),
       Pick(under.txType, over.txType),
       Pick(under.simulationFails, over.simulationFails),
       Pick(under.customNonceValue, over.customNonceValue),
       under.otherFields + over.otherFields)
  }

  /** `{}` is a unit of spreading. */
  lemma SpreadUnit(a: Tx)
    ensures Spread(a, NoTx) == a && Spread(NoTx, a) == a
  {
  }

  /** `fullTxData`: `txData` overlaid by the found transaction, then, when
      `customTxParamsData` is truthy, that text as `txParams.data`. */
  function FullTxData(txData: Tx, transaction: Tx, customData: Option<string>): (r: Tx)
    ensures r.id == Pick(txData.id, transaction.id)
    ensures r.userFeeLevel == Pick(txData.userFeeLevel, transaction.userFeeLevel)
    ensures !Truthy(customData) ==> r.txParams == Pick(txData.txParams, transaction.txParams)
    ensures Truthy(customData) ==> r.txParams.Some? && r.txParams.value.data == customData
    ensures !Truthy(customData) ==> r == Spread(txData, transaction)
  {
    var merged := Spread(txData, transaction);
    if Truthy(customData) then
      merged.(txParams := Some(merged.txParams.GetOr(NoParams).(data := customData)))
    else
      merged
  }

  /** `customTxParamsData` replaces `txParams.data` and nothing else. */
  lemma CustomDataOnlyReplacesData(txData: Tx, transaction: Tx, customData: Option<string>)
    requires Truthy(customData)
    ensures var with := FullTxData(txData, transaction, customData);
            var without := FullTxData(txData, transaction, None);
            && with.(txParams := without.txParams) == without
            && with.txParams.value.(data := without.txParams.GetOr(NoParams).data)
               == without.txParams.GetOr(NoParams)
  {
  }

  /** `txData.simulationFails = transaction.simulationFails` when the found
      transaction has a simulation failure. */
  function RecordSimulationFailure(txData: Tx, transaction: Tx): (r: Tx)
    ensures r.(simulationFails := txData.simulationFails) == txData
    ensures r.simulationFails == Pick(txData.simulationFails, transaction.simulationFails)
  {
    if transaction.simulationFails.Some? then
      txData.(simulationFails := transaction.simulationFails)
    else
      txData
  }

  /** Within the same call, the in-place write to `txData` never shows in
      the merged transaction: the found transaction's own `simulationFails`
      already wins the spread. */
  lemma SimulationFailureWriteIsInvisible(txData: Tx, transaction: Tx, customData: Option<string>)
    ensures FullTxData(RecordSimulationFailure(txData, transaction), transaction, customData)
            == FullTxData(txData, transaction, customData)
  {
  }

  // ---------------------------------------------------------------------
  // Finding the unapproved transaction
  // ---------------------------------------------------------------------

  /** `transactionId || Number(params.id)`: a missing or zero id falls back
      to the route's id. */
  function TargetId(transactionId: Option<int>, paramsId: Option<int>): (r: Option<int>)
    ensures transactionId.Some? && transactionId.value != 0 ==> r == transactionId
    ensures !(transactionId.Some? && transactionId.value != 0) ==> r == paramsId
  {
    if transactionId.Some? && transactionId.value != 0 then transactionId else paramsId
  }

  /** `id === target`; `NaN` and `undefined` equal nothing. */
  predicate HasId(tx: Tx, target: Option<int>) {
    target.Some? && tx.id == target
  }

  /** The position `find` stops at in `Object.values(txs)`. */
  function FindIndex(txs: Entries<Tx>, target: Option<int>): (r: Option<nat>)
    ensures r.Some? ==> r.value < |txs| && HasId(txs[r.value].1, target)
    ensures r.Some? ==> forall j :: 0 <= j < r.value ==> !HasId(txs[j].1, target)
    ensures r.None? ==> forall j :: 0 <= j < |txs| ==> !HasId(txs[j].1, target)
  {
    if txs == [] then None
    else if HasId(txs[0].1, target) then Some(0)
    else
      match FindIndex(txs[1..], target)
      case None => None
      case Some(i) => Some(i + 1)
  }

  /** `Object.values(txs).find(({ id }) => id === target) || {}`. */
  function FoundTransaction(txs: Entries<Tx>, target: Option<int>): (r: Tx)
    ensures r != NoTx ==> exists i :: 0 <= i < |txs| && txs[i].1 == r && HasId(r, target)
    ensures (exists i :: 0 <= i < |txs| && HasId(txs[i].1, target)) ==> HasId(r, target)
  {
    match FindIndex(txs, target)
    case Some(i) => txs[i].1
    case None => NoTx
  }

  /** Of two unapproved transactions with the target id, the earlier one is found. */
  lemma FoundIsFirstMatch(txs: Entries<Tx>, target: Option<int>, i: nat)
    requires i < |txs| && HasId(txs[i].1, target)
    requires forall j :: 0 <= j < i ==> !HasId(txs[j].1, target)
    ensures FoundTransaction(txs, target) == txs[i].1
  {
  }

  /** The transaction the screen confirms. */
  function Found(state: State, own: OwnProps): Tx {
    FoundTransaction(state.unapprovedTxs, TargetId(state.txData.id, own.paramsId))
  }

  /** `(transaction && transaction.txParams) || txParams`: the parameters the
      gas, sender, recipient, value and data are read from. */
  function SourceParams(state: State, own: OwnProps): (r: TxParams)
    ensures Found(state, own).txParams.Some? ==> r == Found(state, own).txParams.value
    ensures Found(state, own).txParams.None? && state.txData.txParams.Some? ==> r == state.txData.txParams.value
    ensures Found(state, own).txParams.None? && state.txData.txParams.None? ==> r == NoParams
  {
    Found(state, own).txParams.GetOr(state.txData.txParams.GetOr(NoParams))
  }

  // ---------------------------------------------------------------------
  // Unapproved transactions of the current network
  // ---------------------------------------------------------------------

  /** `Object.keys(txs).filter(k => matches(txs[k])).reduce((acc, k) => ({...acc, [k]: txs[k]}), {})`. */
  function MatchingEntries(txs: Entries<Tx>, matches: Tx -> bool): (r: Entries<Tx>)
    ensures |r| <= |txs|
    ensures forall e :: e in r <==> e in txs && matches(e.1)
    ensures DistinctKeys(txs) ==> DistinctKeys(r)
  {
    if txs == [] then []
    else (if matches(txs[0].1) then [txs[0]] else []) + MatchingEntries(txs[1..], matches)
  }

  /** The count equals the total exactly when every unapproved transaction
      belongs to the current network. */
  lemma {:induction false} MatchingCountIsTotalIff(txs: Entries<Tx>, matches: Tx -> bool)
    ensures |MatchingEntries(txs, matches)| == |txs| <==> forall i :: 0 <= i < |txs| ==> matches(txs[i].1)
  {
    if txs != [] {
      MatchingCountIsTotalIff(txs[1..], matches);
      assert forall i :: 1 <= i < |txs| ==> txs[i] == txs[1..][i - 1];
      if forall i :: 0 <= i < |txs| ==> matches(txs[i].1) {
        assert forall i :: 0 <= i < |txs[1..]| ==> matches(txs[1..][i].1) by {
          forall i | 0 <= i < |txs[1..]| ensures matches(txs[1..][i].1) {
            assert txs[1..][i] == txs[i + 1];
          }
        }
      }
    }
  }

  /** In an object (distinct keys) the count is the number of matching
      transactions. */
  lemma MatchingCountIsNumberOfMatches(txs: Entries<Tx>, matches: Tx -> bool)
    requires DistinctKeys(txs)
    ensures |MatchingEntries(txs, matches)| == |set e | e in txs && matches(e.1)|
  {
    var r := MatchingEntries(txs, matches);
    DistinctEntriesCount(r);
    assert (set e | e in r) == (set e | e in txs && matches(e.1));
  }

  /** The `matches` of `transactionMatchesNetwork` for the current network. */
  function OnNetwork(state: State, h: Helpers): Tx -> bool {
    tx => h.matchesNetwork(tx, state.chainId, state.network)
  }

  // ---------------------------------------------------------------------
  // Recipient name
  // ---------------------------------------------------------------------

  predicate HasKey<V>(m: map<string, V>, k: Option<string>) {
    k.Some? && k.value in m
  }

  /** `useTokenDetection ? tokenList : <tokenList re-keyed by lower-cased key>`. */
  function CasedTokenList(tokenList: Entries<TokenInfo>, useTokenDetection: bool): (r: map<string, TokenInfo>)
    ensures useTokenDetection ==> forall i :: 0 <= i < |tokenList| ==> tokenList[i].0 in r
    ensures !useTokenDetection ==> forall i :: 0 <= i < |tokenList| ==> Lower(tokenList[i].0) in r
    ensures !useTokenDetection ==> forall k :: k in r ==> Lower(k) == k
  {
    var key := if useTokenDetection then SameKey else Lower;
    var r := Rekey(tokenList, key);
    assert !useTokenDetection ==> forall k :: k in r ==> Lower(k) == k by {
      if !useTokenDetection {
        forall k | k in r ensures Lower(k) == k {
          RekeyOnlyWrittenKeys(tokenList, key, k);
          var i :| 0 <= i < |tokenList| && key(tokenList[i].0) == k;
          LowerIdempotent(tokenList[i].0);
        }
      }
    }
    r
  }

  function IdentityName(identities: map<string, Identity>, to: Option<string>): Option<string> {
    if HasKey(identities, to) then identities[to.value].name else None
  }

  function TokenName(tokens: map<string, TokenInfo>, to: Option<string>): Option<string> {
    if HasKey(tokens, to) then tokens[to.value].name else None
  }

  /** `identities[to]?.name || casedTokenList[to]?.name || shortenAddress(toChecksumHexAddress(to))`. */
  function RecipientName(identities: map<string, Identity>, tokens: map<string, TokenInfo>,
                         to: Option<string>, h: Helpers): (r: string)
    ensures Truthy(IdentityName(identities, to)) ==> r == IdentityName(identities, to).value
    ensures !Truthy(IdentityName(identities, to)) && Truthy(TokenName(tokens, to))
            ==> r == TokenName(tokens, to).value
    ensures !Truthy(IdentityName(identities, to)) && !Truthy(TokenName(tokens, to))
            ==> r == h.shorten(h.checksum(to))
  {
    Or(IdentityName(identities, to), Or(TokenName(tokens, to), Some(h.shorten(h.checksum(to))))).value
  }

  /** With token detection off the token list is keyed by lower-cased
      addresses, so an address with an upper-case letter never finds a token. */
  lemma MixedCaseMissesLowercasedList(tokenList: Entries<TokenInfo>, to: string)
    requires Lower(to) != to
    ensures TokenName(CasedTokenList(tokenList, false), Some(to)) == None
  {
  }

  /** An address that no key of the token list becomes (as is with detection
      on, lower-cased with detection off) finds no token, so the name falls
      through to the shortened address. */
  lemma UnlistedAddressFindsNoToken(tokenList: Entries<TokenInfo>, useTokenDetection: bool, to: string)
    requires forall i :: 0 <= i < |tokenList| ==>
               (if useTokenDetection then tokenList[i].0 else Lower(tokenList[i].0)) != to
    ensures TokenName(CasedTokenList(tokenList, useTokenDetection), Some(to)) == None
  {
    var key := if useTokenDetection then SameKey else Lower;
    RekeyMisses(tokenList, key, to);
  }

  /** With token detection off, a lower-case recipient finds the token whose
      key lower-cases to it, the last such key winning. */
  lemma LowercasedListFindsToken(tokenList: Entries<TokenInfo>, i: int)
    requires 0 <= i < |tokenList| && LastWrite(tokenList, Lower, Lower(tokenList[i].0), i)
    ensures TokenName(CasedTokenList(tokenList, false), Some(Lower(tokenList[i].0))) == tokenList[i].1.name
  {
    RekeyLastWrite(tokenList, Lower, i);
  }

  /** With token detection on, the recipient finds the entry under its exact key. */
  lemma DetectedListFindsToken(tokenList: Entries<TokenInfo>, i: int)
    requires 0 <= i < |tokenList| && DistinctKeys(tokenList)
    ensures TokenName(CasedTokenList(tokenList, true), Some(tokenList[i].0)) == tokenList[i].1.name
  {
    RekeyIdentity(tokenList, tokenList[i].0, tokenList[i].1);
  }

  // ---------------------------------------------------------------------
  // The projection
  // ---------------------------------------------------------------------

  /** `toAddress`, `toEns`, `toName` and `toNickname`. */
  function Recipient(state: State, own: OwnProps, h: Helpers): (r: RecipientProps)
    ensures r.toAddress == Or(own.toAddress, SourceParams(state, own).to)
    ensures r.toName == RecipientName(state.identities, CasedTokenList(state.tokenList, state.useTokenDetection),
                                      r.toAddress, h)
    ensures var ens := state.ensResolutionsByAddress; var c := h.checksum(r.toAddress);
            r.toEns == if c in ens then ens[c] else ""
    ensures h.checksum(r.toAddress) !in state.addressBook ==> r.toNickname == Some("")
    ensures var c := h.checksum(r.toAddress); c in state.addressBook ==> r.toNickname == state.addressBook[c].name
  {
    var toAddress := Or(own.toAddress, SourceParams(state, own).to);
    var checksummed := h.checksum(toAddress);
    RecipientProps(
      toAddress := toAddress,
      toEns := Or(if checksummed in state.ensResolutionsByAddress
                  then Some(state.ensResolutionsByAddress[checksummed]) else None, Some("")).value,
      toName := RecipientName(state.identities, CasedTokenList(state.tokenList, state.useTokenDetection),
                              toAddress, h),
      toNickname := if checksummed in state.addressBook then state.addressBook[checksummed].name else Some(""))
  }

  /** `unapprovedTxs`, and those of them on the current network with their count. */
  function Queue(state: State, h: Helpers): (r: QueueProps)
    ensures r.unapprovedTxs == state.unapprovedTxs
    ensures r.unapprovedTxCount == |r.currentNetworkUnapprovedTxs| <= |state.unapprovedTxs|
    ensures forall e :: e in r.currentNetworkUnapprovedTxs <==>
                        e in state.unapprovedTxs && h.matchesNetwork(e.1, state.chainId, state.network)
    ensures DistinctKeys(state.unapprovedTxs) ==> DistinctKeys(r.currentNetworkUnapprovedTxs)
  {
    var current := MatchingEntries(state.unapprovedTxs, OnNetwork(state, h));
    QueueProps(state.unapprovedTxs, |current|, current)
  }

  /** `supportsEIP1559`, `noGasPrice` and `gasFeeIsCustom`. Note that the
      legacy test reads the confirmation's own `txParams`, not the found
      transaction's, while the custom test reads the merged transaction. */
  function FeeMode(state: State, fullTxData: Tx, h: Helpers): (r: FeeModeProps)
    ensures r.supportsEIP1559 <==> state.supports1559 && !h.isLegacy(state.txData.txParams.GetOr(NoParams))
    ensures r.noGasPrice <==> !r.supportsEIP1559 && state.noGasPriceFetched
    ensures r.gasFeeIsCustom <==> fullTxData.userFeeLevel == Some("custom") || h.dappSuggested(fullTxData)
  {
    var supportsEIP1559 := state.supports1559 && !h.isLegacy(state.txData.txParams.GetOr(NoParams));
    FeeModeProps(
      supportsEIP1559 := supportsEIP1559,
      noGasPrice := !supportsEIP1559 && state.noGasPriceFetched,
      gasFeeIsCustom := fullTxData.userFeeLevel == Some("custom") || h.dappSuggested(fullTxData))
  }

  /** `isOptimism`, `isStandardNetwork` and `multilayerTotal`. */
  function Layer(isOptimism: bool, fees: FeeFigures): (r: LayerProps)
    ensures r.isOptimism == isOptimism && r.isStandardNetwork == !isOptimism
    ensures r.multilayerTotal.Some? <==> isOptimism
    ensures isOptimism ==> r.multilayerTotal == Some(fees.hexEstimatedL1Fee + fees.hexMinimumTransactionFee)
  {
    LayerProps(isOptimism, !isOptimism,
               if isOptimism then Some(fees.hexEstimatedL1Fee + fees.hexMinimumTransactionFee) else None)
  }

  /** The sender `mapStateToProps` destructures has an account and an identity. */
  predicate SenderKnown(state: State, own: OwnProps) {
    && HasKey(state.accounts, SourceParams(state, own).from)
    && HasKey(state.identities, SourceParams(state, own).from)
  }

  /** The props `mapStateToProps` returns for `state`, or the error it throws. */
  function StateProps(state: State, own: OwnProps, h: Helpers): (r: Result<Props, MapError>)
    ensures r.Success? <==> SenderKnown(state, own)
    ensures r == Failure(MissingAccount) <==> !HasKey(state.accounts, SourceParams(state, own).from)
    ensures r.Success? ==> r.value == ScreenProps(state, own, h)
  {
    var from := SourceParams(state, own).from;
    if !HasKey(state.accounts, from) then Failure(MissingAccount)
    else if !HasKey(state.identities, from) then Failure(MissingIdentity)
    else Success(ScreenProps(state, own, h))
  }

  /** The props of a screen whose sender is known. */
  function ScreenProps(state: State, own: OwnProps, h: Helpers): (p: Props)
    requires SenderKnown(state, own)
    ensures var from := SourceParams(state, own).from;
            && p.fromAddress == from
            && p.balance == state.accounts[from.value].balance
            && p.fromName == state.identities[from.value].name
    ensures p.transactionStatus == Found(state, own).status
    ensures p.txType == state.txData.txType
    ensures p.customNonceValue == state.customNonceValue
    ensures p.txData == FullTxData(state.txData, Found(state, own), own.customTxParamsData)
    ensures p.recipient == Recipient(state, own, h)
    ensures p.queue == Queue(state, h)
    ensures p.fees == h.transactionFee(Found(state, own))
    ensures p.feeMode == FeeMode(state, p.txData, h)
    ensures p.layer == Layer(state.isOptimism, p.fees)
    ensures var params := SourceParams(state, own);
            && p.customGas == CustomGas(params.gas, params.gasPrice)
            && p.insufficientBalance == !h.balanceSufficient(params.value, h.gasTotal(params.gas, params.gasPrice),
                                                             p.balance, state.conversionRate)
  {
    var transaction := Found(state, own);
    var params := SourceParams(state, own);
    var balance := state.accounts[params.from.value].balance;
    var fees := h.transactionFee(transaction);
    var fullTxData := FullTxData(state.txData, transaction, own.customTxParamsData);
    Props(
      balance := balance,
      fromAddress := params.from,
      fromName := state.identities[params.from.value].name,
      recipient := Recipient(state, own, h),
      fees := fees,
      txData := fullTxData,
      transactionStatus := transaction.status,
      txType := state.txData.txType,
      queue := Queue(state, h),
      customGas := CustomGas(params.gas, params.gasPrice),
      customNonceValue := state.customNonceValue,
      insufficientBalance := !h.balanceSufficient(params.value, h.gasTotal(params.gas, params.gasPrice),
                                                  balance, state.conversionRate),
      feeMode := FeeMode(state, fullTxData, h),
      layer := Layer(state.isOptimism, fees))
  }

  /** The unapproved-transaction count is the number of unapproved
      transactions on the current network. */
  lemma CountIsCurrentNetworkTransactions(state: State, own: OwnProps, h: Helpers)
    requires StateProps(state, own, h).Success?
    requires DistinctKeys(state.unapprovedTxs)
    ensures StateProps(state, own, h).value.queue.unapprovedTxCount
            == |set e | e in state.unapprovedTxs && h.matchesNetwork(e.1, state.chainId, state.network)|
  {
    MatchingCountIsNumberOfMatches(state.unapprovedTxs, OnNetwork(state, h));
    assert (set e | e in state.unapprovedTxs && OnNetwork(state, h)(e.1))
        == (set e | e in state.unapprovedTxs && h.matchesNetwork(e.1, state.chainId, state.network));
  }

  /** `transactionStatus` is never the `''` fallback: when no unapproved
      transaction has the target id it is absent (`undefined`). */
  lemma StatusAbsentWithoutMatch(state: State, own: OwnProps, h: Helpers)
    requires StateProps(state, own, h).Success?
    requires forall i :: 0 <= i < |state.unapprovedTxs| ==>
               !HasId(state.unapprovedTxs[i].1, TargetId(state.txData.id, own.paramsId))
    ensures StateProps(state, own, h).value.transactionStatus == None
  {
    assert FindIndex(state.unapprovedTxs, TargetId(state.txData.id, own.paramsId)).None?;
  }

  /** Across calls the write does show: `txData` is the store's own object,
      so a later render whose found transaction has no `simulationFails`
      (none is found, or the one found has none) spreads the recorded
      failure into its merged transaction. */
  lemma SimulationFailureOutlivesTheCall(state: State, own: OwnProps, later: State, laterOwn: OwnProps,
                                          customData: Option<string>)
    requires Found(state, own).simulationFails.Some?
    requires later.txData == RecordSimulationFailure(state.txData, Found(state, own))
    requires Found(later, laterOwn).simulationFails.None?
    ensures FullTxData(later.txData, Found(later, laterOwn), customData).simulationFails
            == Found(state, own).simulationFails
  {
  }

  /** A missing legacy gas price is reported only for a screen that does not
      use the fee market. */
  lemma NoGasPriceOnlyForLegacy(state: State, own: OwnProps, h: Helpers)
    requires StateProps(state, own, h).Success?
    ensures var m := StateProps(state, own, h).value.feeMode;
            !(m.noGasPrice && m.supportsEIP1559)
  {
  }

  /** The layer-1 fee is a separate line item: on Optimism the multilayer
      total is the minimum fee plus exactly the estimated layer-1 fee, and
      elsewhere there is none. */
  lemma MultilayerTotalAddsL1Fee(state: State, own: OwnProps, h: Helpers)
    requires StateProps(state, own, h).Success?
    ensures var p := StateProps(state, own, h).value;
            && (p.layer.multilayerTotal.Some? <==> state.isOptimism)
            && (state.isOptimism ==> p.layer.multilayerTotal.value >= p.fees.hexMinimumTransactionFee)
            && (state.isOptimism ==> p.layer.multilayerTotal.value
                                     == h.transactionFee(Found(state, own)).hexEstimatedL1Fee
                                        + h.transactionFee(Found(state, own)).hexMinimumTransactionFee)
  {
  }

  /** Whether the fee counts as custom follows the found transaction's own
      `userFeeLevel` when it has one, otherwise the confirmation's. */
  lemma GasFeeIsCustomSource(state: State, own: OwnProps, h: Helpers)
    requires StateProps(state, own, h).Success?
    requires !h.dappSuggested(StateProps(state, own, h).value.txData)
    ensures var level := Pick(state.txData.userFeeLevel, Found(state, own).userFeeLevel);
            StateProps(state, own, h).value.feeMode.gasFeeIsCustom <==> level == Some("custom")
  {
  }

  /** The gas shown for editing comes from the found transaction's `txParams`
      when it has them, otherwise from the confirmation's. */
  lemma CustomGasSource(state: State, own: OwnProps, h: Helpers)
    requires StateProps(state, own, h).Success?
    ensures var g := StateProps(state, own, h).value.customGas;
            var found := Found(state, own);
            && (found.txParams.Some? ==> g == CustomGas(found.txParams.value.gas, found.txParams.value.gasPrice))
            && (found.txParams.None? ==> g == CustomGas(state.txData.txParams.GetOr(NoParams).gas,
                                                        state.txData.txParams.GetOr(NoParams).gasPrice))
  {
  }

  /** The statements building `fullTxData`: the spread, then the rebinding
      when `customTxParamsData` is truthy. */
  method MergeTxData(txData: Tx, transaction: Tx, customData: Option<string>) returns (fullTxData: Tx)
    ensures fullTxData == FullTxData(txData, transaction, customData)
  {
    fullTxData := Spread(txData, transaction);
    if Truthy(customData) {
      fullTxData := fullTxData.(txParams := Some(fullTxData.txParams.GetOr(NoParams).(data := customData)));
    }
  }

  /** The statements computing `isStandardNetwork` and assigning
      `multilayerTotal` only off the standard network. */
  method ComputeLayer(isOptimism: bool, fees: FeeFigures) returns (layer: LayerProps)
    ensures layer == Layer(isOptimism, fees)
  {
    var isStandardNetwork := !isOptimism;
    var multilayerTotal := None;
    if !isStandardNetwork {
      multilayerTotal := Some(fees.hexEstimatedL1Fee + fees.hexMinimumTransactionFee);
    }
    layer := LayerProps(isOptimism, isStandardNetwork, multilayerTotal);
  }

  // ---------------------------------------------------------------------
  // The container: the custom-nonce cell and the dispatch props using it
  // ---------------------------------------------------------------------

  /** The container module: its one piece of mutable state is the
      module-level `customNonceValue`. */
  class Container {
    var customNonceValue: string

    constructor ()
      ensures customNonceValue == ""
    {
      customNonceValue := "";
    }

    /** `mapStateToProps`: computes the props, writes `txData.simulationFails`
        (returned here as `txDataAfter`) and stores the custom nonce of the
        state in the cell; a thrown error leaves both untouched. */
    method MapStateToProps(state: State, own: OwnProps, h: Helpers)
      returns (r: Result<Props, MapError>, txDataAfter: Tx)
      modifies this
      ensures r == StateProps(state, own, h)
      ensures r.Success? ==> customNonceValue == state.customNonceValue == r.value.customNonceValue
      ensures r.Failure? ==> customNonceValue == old(customNonceValue)
      ensures txDataAfter == if r.Success? then RecordSimulationFailure(state.txData, Found(state, own))
                             else state.txData
    {
      txDataAfter := state.txData;
      var txParams := txDataAfter.txParams.GetOr(NoParams);
      var transaction := FoundTransaction(state.unapprovedTxs, TargetId(txDataAfter.id, own.paramsId));
      var params := transaction.txParams.GetOr(txParams);
      if !HasKey(state.accounts, params.from) {
        return Failure(MissingAccount), txDataAfter;
      }
      var balance := state.accounts[params.from.value].balance;
      if !HasKey(state.identities, params.from) {
        return Failure(MissingIdentity), txDataAfter;
      }
      var fromName := state.identities[params.from.value].name;
      var recipient := Recipient(state, own, h);
      var fees := h.transactionFee(transaction);
      if transaction.simulationFails.Some? {
        txDataAfter := txDataAfter.(simulationFails := transaction.simulationFails);
      }
      var queue := Queue(state, h);
      var insufficientBalance := !h.balanceSufficient(params.value, h.gasTotal(params.gas, params.gasPrice),
                                                      balance, state.conversionRate);
      var fullTxData := MergeTxData(txDataAfter, transaction, own.customTxParamsData);
      SimulationFailureWriteIsInvisible(state.txData, transaction, own.customTxParamsData);
      customNonceValue := state.customNonceValue;
      var feeMode := FeeMode(state, fullTxData, h);
      var layer := ComputeLayer(state.isOptimism, fees);
      r := Success(Props(
        balance := balance,
        fromAddress := params.from,
        fromName := fromName,
        recipient := recipient,
        fees := fees,
        txData := fullTxData,
        transactionStatus := transaction.status,
        txType := state.txData.txType,
        queue := queue,
        customGas := CustomGas(params.gas, params.gasPrice),
        customNonceValue := customNonceValue,
        insufficientBalance := insufficientBalance,
        feeMode := feeMode,
        layer := layer));
    }

    /** `updateCustomNonce(value)`: stores the value in the cell (the
        dispatch that follows is not modelled). */
    method UpdateCustomNonce(value: string)
      modifies this
      ensures customNonceValue == value
    {
      customNonceValue := value;
    }

    /** `customNonceMerge`: adds the cell's value as `customNonceValue` when
        the cell is not empty; nothing else of the transaction changes. */
    function CustomNonceMerge(txData: Tx): (r: Tx)
      reads this
      ensures r.(customNonceValue := txData.customNonceValue) == txData
      ensures customNonceValue != "" ==> r.customNonceValue == Some(customNonceValue)
      ensures customNonceValue == "" ==> r == txData
    {
      if customNonceValue != "" then txData.(customNonceValue := Some(customNonceValue)) else txData
    }

    /** `sendTransaction(txData)`: the transaction handed to `updateAndApproveTx`. */
    method SendTransaction(txData: Tx) returns (approved: Tx)
      ensures approved == CustomNonceMerge(txData)
      ensures approved.customNonceValue == if customNonceValue != "" then Some(customNonceValue)
                                           else txData.customNonceValue
    {
      approved := CustomNonceMerge(txData);
    }
  }

  /** The cell holds whatever was written last: a nonce typed after the
      screen was rendered is the one sent. */
  method SendAfterNonceEdit(c: Container, state: State, own: OwnProps, h: Helpers, typed: string, txData: Tx)
    returns (approved: Tx)
    modifies c
    ensures approved.customNonceValue == if typed != "" then Some(typed) else txData.customNonceValue
    ensures approved.(customNonceValue := txData.customNonceValue) == txData
  {
    var props, after := c.MapStateToProps(state, own, h);
    c.UpdateCustomNonce(typed);
    approved := c.SendTransaction(txData);
  }

  // ---------------------------------------------------------------------
  // mergeProps
  // ---------------------------------------------------------------------

  /** The props the screen receives: the state props overridden by its own
      props (of which only `toAddress` overlaps) plus `customTxParamsData`. */
  datatype MergedProps = MergedProps(props: Props, customTxParamsData: Option<string>)

  function MergeProps(stateProps: Props, own: OwnProps): (r: MergedProps)
    ensures r.props.recipient.toAddress == Pick(stateProps.recipient.toAddress, own.toAddress)
    ensures r.props.(recipient := stateProps.recipient) == stateProps
    ensures r.props.recipient.(toAddress := stateProps.recipient.toAddress) == stateProps.recipient
    ensures r.customTxParamsData == own.customTxParamsData
  {
    var recipient := stateProps.recipient;
    MergedProps(stateProps.(recipient := recipient.(toAddress := Pick(recipient.toAddress, own.toAddress))),
                own.customTxParamsData)
  }

  /** `cancelAllTransactions()`: the list handed to `cancelTxs`. */
  function CancelAllTransactions(m: MergedProps): (r: seq<Tx>)
    ensures |r| == |m.props.queue.unapprovedTxs|
    ensures forall i :: 0 <= i < |r| ==> r[i] == m.props.queue.unapprovedTxs[i].1
  {
    Values(m.props.queue.unapprovedTxs)
  }

  /** The payload `updateGasAndCalculate({ gasLimit, gasPrice })` dispatches
      through `updateTransactionGasFees`. */
  datatype GasFeeUpdate = GasFeeUpdate(gasLimit: Option<nat>, gasPrice: Option<nat>, transaction: Tx, expectHexWei: bool)

  function UpdateGasAndCalculate(m: MergedProps, gasLimit: Option<nat>, gasPrice: Option<nat>): (r: GasFeeUpdate)
    ensures r.transaction == m.props.txData && r.expectHexWei
    ensures r.gasLimit == gasLimit && r.gasPrice == gasPrice
  {
    GasFeeUpdate(gasLimit, gasPrice, m.props.txData, true)
  }

  /** "Reject all" cancels every unapproved transaction, those of other
      networks included, while the count shown covers the current network
      only; the two agree exactly when every transaction is on this network. */
  lemma CancelAllCoversEveryNetwork(state: State, own: OwnProps, h: Helpers)
    requires StateProps(state, own, h).Success?
    ensures var p := StateProps(state, own, h).value;
            var cancelled := CancelAllTransactions(MergeProps(p, own));
            && (forall e :: e in p.queue.currentNetworkUnapprovedTxs ==> e.1 in cancelled)
            && |cancelled| >= p.queue.unapprovedTxCount
            && (|cancelled| == p.queue.unapprovedTxCount <==>
                forall i :: 0 <= i < |state.unapprovedTxs| ==> h.matchesNetwork(state.unapprovedTxs[i].1, state.chainId, state.network))
  {
    var p := StateProps(state, own, h).value;
    var cancelled := CancelAllTransactions(MergeProps(p, own));
    MatchingCountIsTotalIff(state.unapprovedTxs, OnNetwork(state, h));
    forall e | e in p.queue.currentNetworkUnapprovedTxs ensures e.1 in cancelled {
      var i :| 0 <= i < |state.unapprovedTxs| && state.unapprovedTxs[i] == e;
      assert cancelled[i] == e.1;
    }
  }
}
