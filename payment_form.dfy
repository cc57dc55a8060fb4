/** The payment form (src/Payment/components/PaymentForm.tsx): how the memo is built and
    forced, how the form's fields are validated, how a scanned QR payload is read, what the
    form's effects and handlers change, and which destination, asset, memo and fee the
    payment transaction gets. Network lookups arrive as parameters; the library predicates
    `isPublicKey` and `isStellarAddress` are parameters too. */
module Payment {
  import opened Wrappers
  import opened Text
  import opened StellarTypes
  import opened NetWorker
  import opened EcosystemHooks

  /** The amount field as the form's amount helpers classify it: empty, a string
      `isValidAmount` rejects, or a decimal amount. */
  datatype AmountInput = EmptyAmount | InvalidAmount | Amount(value: real)

  /** The unit the amount is typed in: the selected asset itself, or a currency code. */
  datatype AmountType = AssetUnit(asset: Asset) | Currency(code: string)

  /** `PaymentFormValues`. */
  datatype FormValues = FormValues(
    amount: AmountInput,
    eventualAmount: AmountInput,
    asset: Asset,
    amountType: AmountType,
    destination: string,
    memoType: MemoType,
    memoValue: string)

  const DefaultFormValues := FormValues(EmptyAmount, EmptyAmount, Native, AssetUnit(Native), "", MemoNone, "")

  /** A federation record, the response of SEP-0002 federation: the account and, optionally,
      the memo the receiver mandates and its type. */
  datatype FederationRecord = FederationRecord(accountId: string, memo: Option<string>, memoType: Option<string>)

  datatype MemoLabel = DefaultLabel | RequiredLabel | IdLabel | TextLabel
  datatype MemoPlaceholder = OptionalPlaceholder | MandatoryPlaceholder

  /** `MemoMetadata`, with the translated strings replaced by which string it is. */
  datatype MemoMetadata = MemoMetadata(caption: MemoLabel, placeholder: MemoPlaceholder, required: bool)

  const DefaultMemoMetadata := MemoMetadata(DefaultLabel, OptionalPlaceholder, false)
  const RequiredMemoMetadata := MemoMetadata(RequiredLabel, MandatoryPlaceholder, true)

  /** The MEMO_TEXT bound of the Stellar protocol, enforced by the memo field. */
  const MemoTextLimit := 28

  // ---------------------------------------------------------------------------------------
  // Memos

  /** `createMemo`: an id memo for "id", a text memo for "text", no memo for any other type;
      the value is carried unchanged. */
  function CreateMemo(memoType: MemoType, memoValue: string): (m: Memo)
    ensures memoType == MemoId ==> m == Memo(MemoId, Some(memoValue))
    ensures memoType == MemoText ==> m == Memo(MemoText, Some(memoValue))
    ensures memoType != MemoId && memoType != MemoText ==> m == Memo(MemoNone, None)
  {
    match memoType
    case MemoId => Memo(MemoId, Some(memoValue))
    case MemoText => Memo(MemoText, Some(memoValue))
    case _ => Memo(MemoNone, None)
  }

  /** The memos `createMemo` can build: none, or an id or text memo with a value. */
  predicate BuildableMemo(m: Memo) {
    (m.memoType == MemoNone && m.value.None?)
    || ((m.memoType == MemoId || m.memoType == MemoText) && m.value.Some?)
  }

  /** `createMemo` never builds a hash or return memo, and every memo it can build is
      rebuilt from its own type and value. */
  lemma CreateMemoInverse(memoType: MemoType, memoValue: string, m: Memo)
    ensures BuildableMemo(CreateMemo(memoType, memoValue))
    ensures BuildableMemo(m) ==> CreateMemo(m.memoType, m.value.GetOr("")) == m
  {
  }

  /** The memo type after the user edits the memo field: "none" once it is empty, "text"
      when typing into a memo of type "none", the current type otherwise. */
  function MemoTypeAfterEdit(current: MemoType, value: string): (t: MemoType)
    ensures value == "" ==> t == MemoNone
    ensures value != "" && current == MemoNone ==> t == MemoText
    ensures value != "" && current != MemoNone ==> t == current
  {
    if |value| == 0 then MemoNone else if current == MemoNone then MemoText else current
  }

  /** The edited type is "none" exactly for an empty memo, and typing the same value
      again changes nothing. */
  lemma MemoTypeAfterEditProperties(current: MemoType, value: string)
    ensures MemoTypeAfterEdit(current, value) == MemoNone <==> value == ""
    ensures MemoTypeAfterEdit(MemoTypeAfterEdit(current, value), value) == MemoTypeAfterEdit(current, value)
  {
  }

  /** The memo type a federation record forces: "id" when its memo_type is non-empty and,
      lower-cased, does not contain "text"; "text" otherwise. */
  function FederationMemoType(memoType: Option<string>): (t: MemoType)
    ensures t == MemoId <==> memoType.Some? && memoType.value != "" && !Contains(ToLower(memoType.value), "text")
    ensures t == MemoId || t == MemoText
  {
    if memoType.Some? && memoType.value != "" && !Contains(ToLower(memoType.value), "text") then MemoId
    else MemoText
  }

  /** The SEP-0002 memo types: "text" stays text, "id" and "hash" are forced as id memos,
      and a missing or empty memo_type gives a text memo. */
  lemma FederationMemoTypeOfSep2Types()
    ensures FederationMemoType(Some("text")) == MemoText
    ensures FederationMemoType(Some("TEXT")) == MemoText
    ensures FederationMemoType(Some("id")) == MemoId
    ensures FederationMemoType(Some("hash")) == MemoId
    ensures FederationMemoType(Some("")) == MemoText
    ensures FederationMemoType(None) == MemoText
  {
    assert ToLower("TEXT") == "text";
    assert "text" <= "text";
    assert ToLower("id") == "id";
    assert ToLower("hash") == "hash";
    NotContainsText("id");
    NotContainsText("hash");
  }

  lemma NotContainsText(s: string)
    requires |s| <= 4 && s != "text"
    ensures !Contains(s, "text")
  {
    if Contains(s, "text") {
      if !("text" <= s) {
        ContainsFits(s[1..], "text");
      }
    }
  }

  /** A lookup result the destination handler keeps: one that names both a memo and a memo type. */
  predicate CarriesMemo(r: FederationRecord) {
    r.memo.Some? && r.memo.value != "" && r.memoType.Some? && r.memoType.value != ""
  }

  /** What a successful federation lookup leaves as the matching record. */
  function AcceptedLookupRecord(result: Option<FederationRecord>): (r: Option<FederationRecord>)
    ensures r.Some? <==> result.Some? && CarriesMemo(result.value)
    ensures r.Some? ==> r == result
  {
    if result.Some? && CarriesMemo(result.value) then result else None
  }

  /** The memo metadata for the matched well-known account: required exactly when its tags
      hold "memo-required", the default otherwise. */
  function DirectoryMemoMetadata(account: Option<AccountRecord>): (m: MemoMetadata)
    ensures m.required <==> account.Some? && "memo-required" in account.value.tags
    ensures m.required ==> m == RequiredMemoMetadata
    ensures !m.required ==> m == DefaultMemoMetadata
  {
    if account.Some? && "memo-required" in account.value.tags then RequiredMemoMetadata
    else DefaultMemoMetadata
  }

  /** The memo metadata a federation record forces: always required, labelled by its type. */
  function FederationMemoMetadata(memoType: MemoType): (m: MemoMetadata)
    ensures m.required
    ensures m.caption == (if memoType == MemoId then IdLabel else TextLabel)
    ensures m.placeholder == OptionalPlaceholder
  {
    MemoMetadata(if memoType == MemoId then IdLabel else TextLabel, OptionalPlaceholder, true)
  }

  // ---------------------------------------------------------------------------------------
  // Validators

  datatype AmountError = NoPrice | InvalidPrice | NotEnoughFunds

  /** The amount rules: required, a valid non-zero amount, and no more than can be spent. */
  function ValidateAmount(amount: AmountInput, spendable: real): (r: Option<AmountError>)
    ensures r.None? <==> amount.Amount? && amount.value != 0.0 && amount.value <= spendable
    ensures r == Some(NoPrice) <==> amount.EmptyAmount?
    ensures r == Some(InvalidPrice) <==> amount.InvalidAmount? || amount == Amount(0.0)
    ensures r == Some(NotEnoughFunds) <==> amount.Amount? && amount.value != 0.0 && amount.value > spendable
  {
    match amount
    case EmptyAmount => Some(NoPrice)
    case InvalidAmount => Some(InvalidPrice)
    case Amount(a) =>
      if a == 0.0 then Some(InvalidPrice)
      else if a > spendable then Some(NotEnoughFunds)
      else None
  }

  /** The whole spendable balance may be sent; any positive excess is refused. */
  lemma AmountAtBalanceBoundary(spendable: real, excess: real)
    requires spendable > 0.0 && excess > 0.0
    ensures ValidateAmount(Amount(spendable), spendable).None?
    ensures ValidateAmount(Amount(spendable + excess), spendable) == Some(NotEnoughFunds)
  {
  }

  /** The spendable balance in the unit the amount is typed in: as is for an asset, through
      the selected currency's estimate for a currency. */
  function SpendableInAmountUnit(amountType: AmountType, spendable: real, currencyEstimate: Estimate): (r: real)
    ensures amountType.AssetUnit? ==> r == spendable
    ensures amountType.Currency? ==> r == currencyEstimate.convertAmount(spendable)
  {
    if amountType.AssetUnit? then spendable else currencyEstimate.convertAmount(spendable)
  }

  /** Until a price has arrived, no positive amount typed in a currency passes: the
      spendable balance converts to 0. */
  lemma NoPriceRefusesCurrencyAmounts(code: string, asset: Asset, bids: seq<Offer>, spendable: real, amount: real)
    requires amount > 0.0
    ensures ValidateAmount(Amount(amount), SpendableInAmountUnit(Currency(code), spendable, FiatEstimate(asset, 0.0, bids))) == Some(NotEnoughFunds)
  {
    NoPriceEstimatesZero(asset, 0.0, bids, spendable);
  }

  datatype MemoError = MemoTooLong | MemoRequired | IntegerMemoRequired

  /** The memo rules, checked in order: at most 28 characters; not empty when the memo is
      required and a well-known account matched; only digits for an id memo. */
  function ValidateMemo(value: string, memoType: MemoType, metadata: MemoMetadata, wellknownAccount: Option<AccountRecord>): (r: Option<MemoError>)
    ensures r.None? <==>
      && |value| <= MemoTextLimit
      && (metadata.required && wellknownAccount.Some? ==> value != "")
      && (memoType == MemoId ==> IsDigits(value))
    ensures r == Some(MemoTooLong) <==> |value| > MemoTextLimit
    ensures r == Some(MemoRequired) ==> value == "" && metadata.required && wellknownAccount.Some?
    ensures r == Some(IntegerMemoRequired) ==> memoType == MemoId && !IsDigits(value)
    ensures r == Some(IntegerMemoRequired) ==> |value| <= MemoTextLimit && !(metadata.required && wellknownAccount.Some? && value == "")
  {
    if |value| > MemoTextLimit then Some(MemoTooLong)
    else if metadata.required && wellknownAccount.Some? && |value| == 0 then Some(MemoRequired)
    else if memoType == MemoId && !IsDigits(value) then Some(IntegerMemoRequired)
    else None
  }

  /** A memo required by a federation record alone, with no well-known account matched,
      does not stop an empty text memo. */
  lemma FederationRequirementAloneAcceptsEmptyMemo()
    ensures ValidateMemo("", MemoText, FederationMemoMetadata(MemoText), None).None?
  {
  }

  datatype DestinationError = NoDestination | StellarAddressNotFound | InvalidDestination

  /** The destination rules as written: required; a federation address with no matching
      record is "not found"; otherwise a public key or a federation address is accepted. */
  function ValidateDestination(
    value: string, isPublicKey: string -> bool, isStellarAddress: string -> bool,
    matchingRecord: Option<FederationRecord>): (r: Option<DestinationError>)
    ensures r == Some(NoDestination) <==> value == ""
    ensures r == Some(StellarAddressNotFound) <==> value != "" && isStellarAddress(value) && matchingRecord.None?
    ensures r.None? <==> value != "" && (isPublicKey(value) || isStellarAddress(value)) && !(isStellarAddress(value) && matchingRecord.None?)
  {
    if value == "" then Some(NoDestination)
    else if isStellarAddress(value) && matchingRecord.None? then Some(StellarAddressNotFound)
    else if isPublicKey(value) || isStellarAddress(value) then None
    else Some(InvalidDestination)
  }

  /** As written, a federation address that resolves to a record without a memo is
      reported as not found: the handler drops such a record, and the validator then
      sees no match. */
  lemma MemolessFederationAddressRejected(
    value: string, isPublicKey: string -> bool, isStellarAddress: string -> bool, record: FederationRecord)
    requires value != "" && isStellarAddress(value) && record.memo.None?
    ensures ValidateDestination(value, isPublicKey, isStellarAddress, AcceptedLookupRecord(Some(record))) == Some(StellarAddressNotFound)
  {
  }

  /** The destination rules with "not found" decided by the lookup itself: a federation
      address is not found only when the lookup returned no record. */
  function ValidateResolvedDestination(
    value: string, isPublicKey: string -> bool, isStellarAddress: string -> bool,
    lookupResult: Option<FederationRecord>): (r: Option<DestinationError>)
    ensures r == Some(NoDestination) <==> value == ""
    ensures r == Some(StellarAddressNotFound) <==> value != "" && isStellarAddress(value) && lookupResult.None?
    ensures r.None? <==> value != "" && (isPublicKey(value) || isStellarAddress(value)) && !(isStellarAddress(value) && lookupResult.None?)
    ensures r == Some(InvalidDestination) <==> value != "" && !isPublicKey(value) && !isStellarAddress(value)
  {
    ValidateDestination(value, isPublicKey, isStellarAddress, lookupResult)
  }

  /** With the corrected rule, every federation address the lookup resolved is accepted,
      whether or not its record mandates a memo. */
  lemma ResolvedFederationAddressAccepted(
    value: string, isPublicKey: string -> bool, isStellarAddress: string -> bool, record: FederationRecord)
    requires value != "" && isStellarAddress(value)
    ensures ValidateResolvedDestination(value, isPublicKey, isStellarAddress, Some(record)).None?
  {
  }

  // ---------------------------------------------------------------------------------------
  // QR payloads

  /** A scanned payload read as destination and, when present, the `dt` memo. */
  datatype QrScan = QrScan(destination: string, dtMemo: Option<string>)

  /** `handleQRScan`'s reading of a payload: the destination is the text before the first
      "?"; a non-empty `dt` parameter of the query that follows is the memo. */
  function ParseQrPayload(scan: string): (r: QrScan)
    ensures r.destination == Split(scan, '?')[0]
    ensures '?' !in r.destination && r.destination <= scan
    ensures '?' !in scan ==> r.destination == scan && r.dtMemo.None?
    ensures r.dtMemo.Some? ==> r.dtMemo.value != ""
    ensures r.dtMemo.Some? <==>
      |Split(scan, '?')| >= 2 && QueryParam(Split(scan, '?')[1], "dt").Some? && QueryParam(Split(scan, '?')[1], "dt").value != ""
    ensures r.dtMemo.Some? ==> r.dtMemo == QueryParam(Split(scan, '?')[1], "dt")
  {
    var parts := Split(scan, '?');
    var destination := parts[0];
    SplitHeadIsPrefix(scan, '?');
    if |parts| < 2 || parts[1] == "" then QrScan(destination, None)
    else
      match QueryParam(parts[1], "dt")
      case Some(memo) => if memo != "" then QrScan(destination, Some(memo)) else QrScan(destination, None)
      case None => QrScan(destination, None)
  }

  /** A payload of the shape `<destination>?dt=<memo>`. */
  function QrPayload(destination: string, memo: string): string {
    destination + "?dt=" + memo
  }

  /** Reading a `<destination>?dt=<memo>` payload gives back the destination and the memo. */
  lemma QrPayloadRoundTrip(destination: string, memo: string)
    requires '?' !in destination && '?' !in memo && '&' !in memo && memo != ""
    ensures ParseQrPayload(QrPayload(destination, memo)) == QrScan(destination, Some(memo))
  {
    QrPayloadPieces(destination, memo);
    DtQueryParam(memo);
  }

  /** Any query of `&`-separated pairs: the memo is the first non-empty pair named `dt`,
      when its value is non-empty; other pairs, before or after it, do not matter. */
  lemma QrPayloadWithQuery(destination: string, pairs: seq<string>)
    requires '?' !in destination && |pairs| >= 1
    requires forall i :: 0 <= i < |pairs| ==> '&' !in pairs[i] && '?' !in pairs[i]
    ensures ParseQrPayload(destination + "?" + Join(pairs, '&')).destination == destination
    ensures ParseQrPayload(destination + "?" + Join(pairs, '&')).dtMemo ==
      match FirstParam(pairs, "dt")
      case Some(memo) => if memo != "" then Some(memo) else None
      case None => None
  {
    var query := Join(pairs, '&');
    JoinAvoids(pairs, '&', '?');
    assert destination + "?" + query == destination + ['?'] + query;
    SplitAtFirst(destination, '?', query);
    SplitJoin(pairs, '&');
  }

  /** A payload carrying an amount before the memo still yields the memo. */
  lemma QrPayloadWithAmountFirst(destination: string, amount: string, memo: string)
    requires '?' !in destination && memo != ""
    requires '&' !in amount && '?' !in amount && '&' !in memo && '?' !in memo
    ensures ParseQrPayload(destination + "?amount=" + amount + "&dt=" + memo) == QrScan(destination, Some(memo))
  {
    var pairs := ["amount=" + amount, "dt=" + memo];
    AmountThenDtQuery(destination, amount, memo);
    QrPayloadWithQuery(destination, pairs);
    AmountThenDtParam(amount, memo);
  }

  lemma AmountThenDtQuery(destination: string, amount: string, memo: string)
    ensures destination + "?amount=" + amount + "&dt=" + memo == destination + "?" + Join(["amount=" + amount, "dt=" + memo], '&')
  {
    var pairs := ["amount=" + amount, "dt=" + memo];
    assert pairs[1..] == ["dt=" + memo];
  }

  lemma AmountThenDtParam(amount: string, memo: string)
    ensures FirstParam(["amount=" + amount, "dt=" + memo], "dt") == Some(memo)
  {
    var pairs := ["amount=" + amount, "dt=" + memo];
    assert pairs[0] == "amount" + ['='] + amount;
    SplitAtFirst("amount", '=', amount);
    assert ParamName(pairs[0]) == "amount";
    DtPair(memo);
    assert pairs[1..] == ["dt=" + memo];
  }

  lemma DtPair(memo: string)
    ensures ParamName("dt=" + memo) == "dt" && ParamValue("dt=" + memo) == memo
  {
    assert "dt=" + memo == "dt" + ['='] + memo;
    SplitAtFirst("dt", '=', memo);
    IndexOfAfterPrefix("dt", '=', memo);
  }

  lemma QrPayloadPieces(destination: string, memo: string)
    requires '?' !in destination && '?' !in memo
    ensures Split(QrPayload(destination, memo), '?') == [destination, "dt=" + memo]
  {
    var query := "dt=" + memo;
    assert QrPayload(destination, memo) == destination + ['?'] + query;
    SplitAtFirst(destination, '?', query);
    assert '?' !in query;
  }

  lemma DtQueryParam(memo: string)
    requires '&' !in memo
    ensures QueryParam("dt=" + memo, "dt") == Some(memo)
  {
    var query := "dt=" + memo;
    assert '&' !in query;
    assert Split(query, '&') == [query];
    assert query == "dt" + ['='] + memo;
    SplitAtFirst("dt", '=', memo);
    IndexOfAfterPrefix("dt", '=', memo);
    assert ParamName(query) == "dt";
    assert ParamValue(query) == memo;
  }

  // ---------------------------------------------------------------------------------------
  // Amounts

  /** The `eventualAmount` effect: the typed amount itself when it is in the selected asset
      (an empty one read as "0.00"), otherwise the amount converted to the asset. */
  function EventualAmount(v: FormValues, toAsset: Estimate): (r: AmountInput)
    ensures v.amountType == AssetUnit(v.asset) ==> r == (if v.amount.EmptyAmount? then Amount(0.0) else v.amount)
    ensures v.amountType != AssetUnit(v.asset) && v.amount.Amount? ==> r == Amount(toAsset.convertAmount(v.amount.value))
    ensures v.amountType != AssetUnit(v.asset) && v.amount.EmptyAmount? ==> r == Amount(toAsset.convertAmount(0.0))
    ensures v.amount.InvalidAmount? <==> r.InvalidAmount?
  {
    if v.amountType == AssetUnit(v.asset) then
      if v.amount.EmptyAmount? then Amount(0.0) else v.amount
    else
      match v.amount
      case EmptyAmount => Amount(toAsset.convertAmount(0.0))
      case InvalidAmount => InvalidAmount
      case Amount(a) => Amount(toAsset.convertAmount(a))
  }

  /** Paying in a currency for XLM at a stable positive price sends an XLM amount whose
      fiat value is exactly the amount typed. */
  lemma CurrencyPaymentKeepsValue(v: FormValues, xlmPrice: real, assetBids: seq<Offer>, fiatBids: seq<Offer>)
    requires v.asset == Native && v.amountType.Currency? && v.amount.Amount? && xlmPrice > 0.0
    ensures EventualAmount(v, AssetEstimate(Native, xlmPrice, assetBids)).Amount?
    ensures FiatEstimate(Native, xlmPrice, fiatBids).convertAmount(EventualAmount(v, AssetEstimate(Native, xlmPrice, assetBids)).value) == v.amount.value
  {
    NativeRoundTrip(xlmPrice, fiatBids, assetBids, v.amount.value);
  }

  // ---------------------------------------------------------------------------------------
  // The payment transaction

  datatype LookupError = LookupError(destination: string)

  datatype PaymentOperation = PaymentOperation(destination: string, asset: Asset, amount: AmountInput)

  /** What `createTransaction` is given: the operations, the memo and the minimum fee. */
  datatype PaymentTransaction = PaymentTransaction(operations: seq<PaymentOperation>, memo: Memo, minTransactionFee: nat)

  /** `trustedAssets.find(trustedAsset => trustedAsset.equals(asset))`. */
  function FindTrustedAsset(trustedAssets: seq<Asset>, asset: Asset): (r: Option<Asset>)
    ensures r.Some? <==> asset in trustedAssets
    ensures r.Some? ==> r.value == asset
  {
    if trustedAssets == [] then None
    else if trustedAssets[0] == asset then Some(trustedAssets[0])
    else FindTrustedAsset(trustedAssets[1..], asset)
  }

  /** `createPaymentTx`: a federation address (one with "*") is looked up and paid to its
      account, any other input is paid as typed; the asset is the matching trusted asset or
      XLM; exactly one payment operation; the memo is `createMemo` of the form's memo; the
      minimum fee is the multisig fee exactly when the account has more than one signer.
      A failed lookup fails the whole build. */
  function CreatePaymentTx(
    v: FormValues, trustedAssets: seq<Asset>, signerCount: nat, multisigMinimumFee: nat,
    lookupFederationRecord: string -> Result<Option<FederationRecord>, LookupError>): (r: Result<PaymentTransaction, LookupError>)
    ensures r.Failure? <==> '*' in v.destination && lookupFederationRecord(v.destination).Failure?
    ensures r.Failure? ==> r.error == lookupFederationRecord(v.destination).error
    ensures r.Success? ==> |r.value.operations| == 1
    ensures r.Success? ==> r.value.operations[0].asset == (if v.asset in trustedAssets then v.asset else Native)
    ensures r.Success? ==> r.value.operations[0].amount == v.eventualAmount
    ensures r.Success? && '*' !in v.destination ==> r.value.operations[0].destination == v.destination
    ensures r.Success? && '*' in v.destination ==>
      var found := lookupFederationRecord(v.destination).value;
      r.value.operations[0].destination == if found.Some? then found.value.accountId else v.destination
    ensures r.Success? ==> r.value.memo == CreateMemo(v.memoType, v.memoValue)
    ensures r.Success? ==> r.value.minTransactionFee == if signerCount > 1 then multisigMinimumFee else 0
  {
    var asset := FindTrustedAsset(trustedAssets, v.asset);
    var lookup: Result<Option<FederationRecord>, LookupError> :=
      if '*' in v.destination then lookupFederationRecord(v.destination) else Success(None);
    match lookup
    case Failure(e) => Failure(e)
    case Success(federationRecord) =>
      var destination := if federationRecord.Some? then federationRecord.value.accountId else v.destination;
      var payment := PaymentOperation(destination, asset.GetOr(Native), v.eventualAmount);
      Success(PaymentTransaction([payment], CreateMemo(v.memoType, v.memoValue), if signerCount > 1 then multisigMinimumFee else 0))
  }

  /** What submitting the form does: any failing field rule stops it before a transaction
      is built; otherwise the transaction is built from the submitted values. */
  datatype SubmitOutcome =
    | Invalid(amountError: Option<AmountError>, memoError: Option<MemoError>, destinationError: Option<DestinationError>)
    | Submitted(tx: Result<PaymentTransaction, LookupError>)

  function SubmitPayment(
    v: FormValues, spendable: real, metadata: MemoMetadata, wellknownAccount: Option<AccountRecord>,
    matchingRecord: Option<FederationRecord>, isPublicKey: string -> bool, isStellarAddress: string -> bool,
    trustedAssets: seq<Asset>, signerCount: nat, multisigMinimumFee: nat,
    lookupFederationRecord: string -> Result<Option<FederationRecord>, LookupError>): (r: SubmitOutcome)
    ensures r.Submitted? <==>
      && ValidateAmount(v.amount, spendable).None?
      && ValidateMemo(v.memoValue, v.memoType, metadata, wellknownAccount).None?
      && ValidateDestination(v.destination, isPublicKey, isStellarAddress, matchingRecord).None?
    ensures r.Submitted? ==> r.tx == CreatePaymentTx(v, trustedAssets, signerCount, multisigMinimumFee, lookupFederationRecord)
    ensures v.amount.Amount? && v.amount.value > spendable ==> r.Invalid?
    ensures r.Invalid? ==>
      && r.amountError == ValidateAmount(v.amount, spendable)
      && r.memoError == ValidateMemo(v.memoValue, v.memoType, metadata, wellknownAccount)
      && r.destinationError == ValidateDestination(v.destination, isPublicKey, isStellarAddress, matchingRecord)
  {
    var amountError := ValidateAmount(v.amount, spendable);
    var memoError := ValidateMemo(v.memoValue, v.memoType, metadata, wellknownAccount);
    var destinationError := ValidateDestination(v.destination, isPublicKey, isStellarAddress, matchingRecord);
    if amountError.Some? || memoError.Some? || destinationError.Some? then
      Invalid(amountError, memoError, destinationError)
    else
      Submitted(CreatePaymentTx(v, trustedAssets, signerCount, multisigMinimumFee, lookupFederationRecord))
  }

  // ---------------------------------------------------------------------------------------
  // The form's state and its transitions

  /** The form's state: its values and the three pieces of component state the effects
      and handlers replace. */
  class PaymentForm {
    var values: FormValues
    var federationRecord: Option<FederationRecord>
    var wellknownAccount: Option<AccountRecord>
    var memoMetadata: MemoMetadata

    /** The destination handler only ever keeps a record that names a memo and its type. */
    ghost predicate Valid()
      reads this`federationRecord
    {
      federationRecord.Some? ==> CarriesMemo(federationRecord.value)
    }

    constructor ()
      ensures Valid()
      ensures values == DefaultFormValues && memoMetadata == DefaultMemoMetadata
      ensures federationRecord.None? && wellknownAccount.None?
    {
      values := DefaultFormValues;
      federationRecord := None;
      wellknownAccount := None;
      memoMetadata := DefaultMemoMetadata;
    }

    /** The amount field's `onChange`. */
    method ChangeAmount(amount: AmountInput)
      modifies this`values
      ensures values == old(values).(amount := amount)
    {
      values := values.(amount := amount);
    }

    /** The asset selector. */
    method SelectAsset(asset: Asset)
      modifies this`values
      ensures values == old(values).(asset := asset)
    {
      values := values.(asset := asset);
    }

    /** The currency selector: the selected asset or a currency code. */
    method SelectAmountType(amountType: AmountType)
      modifies this`values
      ensures values == old(values).(amountType := amountType)
    {
      values := values.(amountType := amountType);
    }

    /** When the amount is typed in an asset, that asset follows the selected asset. */
    method SyncAmountType()
      modifies this`values
      ensures old(values).amountType.AssetUnit? ==> values == old(values).(amountType := AssetUnit(old(values).asset))
      ensures old(values).amountType.Currency? ==> values == old(values)
    {
      if values.amountType.AssetUnit? {
        values := values.(amountType := AssetUnit(values.asset));
      }
    }

    /** Recomputes the amount that will be sent, given the currency-to-asset estimate. */
    method UpdateEventualAmount(toAsset: Estimate)
      modifies this`values
      ensures values == old(values).(eventualAmount := EventualAmount(old(values), toAsset))
    {
      values := values.(eventualAmount := EventualAmount(values, toAsset));
    }

    /** The well-known account effect: for a destination that is a public key or a federation
        address, a directory answer becomes the match and a rejected lookup leaves the previous
        match in place (the source attaches no handler to the rejection); any other
        destination clears the match. */
    method MatchWellknownAccount(
      isPublicKey: string -> bool, isStellarAddress: string -> bool,
      directoryAnswer: Result<Option<AccountRecord>, FetchError>)
      modifies this`wellknownAccount
      ensures !(isPublicKey(values.destination) || isStellarAddress(values.destination)) ==> wellknownAccount.None?
      ensures (isPublicKey(values.destination) || isStellarAddress(values.destination)) && directoryAnswer.Success? ==>
        wellknownAccount == directoryAnswer.value
      ensures (isPublicKey(values.destination) || isStellarAddress(values.destination)) && directoryAnswer.Failure? ==>
        wellknownAccount == old(wellknownAccount)
    {
      if isPublicKey(values.destination) || isStellarAddress(values.destination) {
        if directoryAnswer.Success? {
          wellknownAccount := directoryAnswer.value;
        }
      } else {
        wellknownAccount := None;
      }
    }

    /** The directory memo effect: required exactly when the matched account is tagged
        "memo-required", reset to the default otherwise. Memo type and value are untouched. */
    method ApplyDirectoryMemoPolicy()
      modifies this`memoMetadata
      ensures memoMetadata == DirectoryMemoMetadata(wellknownAccount)
      ensures memoMetadata.required <==> wellknownAccount.Some? && "memo-required" in wellknownAccount.value.tags
    {
      memoMetadata := DirectoryMemoMetadata(wellknownAccount);
    }

    /** The federation memo effect: with a matching record, its memo and the type it implies
        are forced into the form, and the memo becomes required. */
    method ApplyFederationMemoPolicy()
      requires Valid()
      modifies this`values, this`memoMetadata
      ensures federationRecord.None? ==> values == old(values) && memoMetadata == old(memoMetadata)
      ensures federationRecord.Some? ==>
        && values == old(values).(memoValue := federationRecord.value.memo.value,
                                  memoType := FederationMemoType(federationRecord.value.memoType))
        && memoMetadata == FederationMemoMetadata(values.memoType)
        && memoMetadata.required
    {
      if federationRecord.Some? {
        var record := federationRecord.value;
        var requiredType := FederationMemoType(record.memoType);
        values := values.(memoValue := record.memo.value, memoType := requiredType);
        memoMetadata := FederationMemoMetadata(requiredType);
      }
    }

    /** A scanned QR payload sets the destination and, with a non-empty `dt`, an id memo;
        otherwise the memo fields stay as they were. */
    method HandleQrScan(scan: string)
      modifies this`values
      ensures var q := ParseQrPayload(scan);
        values == if q.dtMemo.Some? then old(values).(destination := q.destination, memoType := MemoId, memoValue := q.dtMemo.value)
                  else old(values).(destination := q.destination)
    {
      var q := ParseQrPayload(scan);
      values := values.(destination := q.destination);
      if q.dtMemo.Some? {
        values := values.(memoType := MemoId, memoValue := q.dtMemo.value);
      }
    }

    /** The destination field's `onChange`: the trimmed input becomes the destination and is
        the string the federation lookup is started for. */
    method ChangeDestination(input: string) returns (lookedUp: string)
      modifies this`values
      ensures lookedUp == Trim(input)
      ensures values == old(values).(destination := lookedUp)
    {
      lookedUp := Trim(input);
      values := values.(destination := lookedUp);
    }

    /** A lookup answers: a record naming a memo and a memo type becomes the match, anything
        else clears it. The answer is applied whatever the destination is by now. */
    method FederationLookupSucceeded(result: Option<FederationRecord>)
      requires Valid()
      modifies this`federationRecord
      ensures Valid()
      ensures federationRecord == AcceptedLookupRecord(result)
    {
      federationRecord := AcceptedLookupRecord(result);
    }

    /** A lookup fails: the match is cleared only if the destination it was started for is
        still the form's destination; a stale failure changes nothing. */
    method FederationLookupFailed(lookedUp: string)
      requires Valid()
      modifies this`federationRecord
      ensures Valid()
      ensures lookedUp == values.destination ==> federationRecord.None?
      ensures lookedUp != values.destination ==> federationRecord == old(federationRecord)
    {
      if lookedUp == values.destination {
        federationRecord := None;
      }
    }

    /** The memo field's `onChange`: the typed value becomes the memo, and the type follows
        `MemoTypeAfterEdit`. The field is disabled while a federation record matches. */
    method ChangeMemo(value: string)
      requires federationRecord.None?
      modifies this`values
      ensures values == old(values).(memoType := MemoTypeAfterEdit(old(values).memoType, value), memoValue := value)
    {
      values := values.(memoType := MemoTypeAfterEdit(values.memoType, value), memoValue := value);
    }
  }

  /** A federation address whose record mandates id memo "42", sent to an account the
      directory also tags "memo-required", with the directory step run before the federation
      step: the federation memo is what the form ends up with, and the memo is required. */
  method FederationPaymentScenario()
  {
    var form := ScenarioForm();
    var record := ScenarioRecord;
    ScenarioRecordForcesIdMemo();
    form.FederationLookupSucceeded(Some(record));
    form.MatchWellknownAccount(ScenarioIsPublicKey, ScenarioIsStellarAddress, Success(Some(AccountRecord("GABC", "Example", ["memo-required"]))));
    assert form.wellknownAccount.Some?;
    form.ApplyDirectoryMemoPolicy();
    form.ApplyFederationMemoPolicy();
    assert form.values.memoType == MemoId && form.values.memoValue == "42";
    assert form.values.destination == ScenarioAddress;
    assert form.memoMetadata.required;
    ScenarioTransaction(form.values, record);
  }

  const ScenarioAddress := "alice*example.com"

  /** A new form after the scenario's address was typed into the destination field. */
  method ScenarioForm() returns (form: PaymentForm)
    ensures fresh(form) && form.Valid() && form.federationRecord.None?
    ensures form.values.destination == ScenarioAddress
  {
    form := new PaymentForm();
    ScenarioAddressIsTrimmed();
    var lookedUp := form.ChangeDestination(ScenarioAddress);
  }
  const ScenarioRecord := FederationRecord("GABC", Some("42"), Some("id"))

  lemma ScenarioRecordForcesIdMemo()
    ensures CarriesMemo(ScenarioRecord) && AcceptedLookupRecord(Some(ScenarioRecord)) == Some(ScenarioRecord)
    ensures FederationMemoType(ScenarioRecord.memoType) == MemoId
  {
    FederationMemoTypeOfSep2Types();
  }

  /** Stand-ins for the address predicates in the scenario: no public key, and a
      federation address is anything holding "*". */
  predicate ScenarioIsPublicKey(d: string) { false }
  predicate ScenarioIsStellarAddress(d: string) { '*' in d }

  lemma ScenarioAddressIsTrimmed()
    ensures Trim(ScenarioAddress) == ScenarioAddress
    ensures '*' in ScenarioAddress
  {
    assert ScenarioAddress[5] == '*';
    assert forall k :: 0 <= k < |ScenarioAddress| ==> !IsWhiteSpace(ScenarioAddress[k]);
  }

  /** The transaction for that form pays the federated account with id memo "42", and a
      second signer makes the minimum fee the multisig fee. */
  lemma ScenarioTransaction(v: FormValues, record: FederationRecord)
    requires v.destination == ScenarioAddress && v.memoType == MemoId && v.memoValue == "42"
    requires record == FederationRecord("GABC", Some("42"), Some("id"))
    ensures var tx := CreatePaymentTx(v, [], 2, 200, (d: string) => Success(Some(record)));
      && tx.Success?
      && tx.value.memo == Memo(MemoId, Some("42"))
      && tx.value.operations[0].destination == "GABC"
      && tx.value.minTransactionFee == 200
  {
    assert ScenarioAddress[5] == '*';
  }
}
