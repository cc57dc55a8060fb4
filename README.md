# Solar payment form, ecosystem estimates, network worker and settings — a Dafny model

This project models four parts of the Solar Stellar wallet:

- **The payment form** (`Payment`, payment_form.dfy). It covers:
  - how a memo is built from the form's memo type and value;
  - how a memo is forced, either by a well-known account tagged `memo-required` or by a federation record that names a memo;
  - the amount, memo and destination validators;
  - how a scanned QR payload `<destination>?dt=<memo>` fills the form;
  - what each effect and handler changes in the form's state (the `PaymentForm` class);
  - the payment transaction the form's values produce: its destination, asset, memo and minimum fee.
- **The ecosystem estimate hooks** (`EcosystemHooks`, ecosystem_hooks.dfy). It covers:
  - the `xlmPrice` state (`PriceConversion`) and `convertXLM`;
  - the fiat estimate of an asset, and the asset estimate of a currency, built from that price and the best bid of an order book.
- **The network worker** (`NetWorker`, net_worker.dfy). It covers:
  - the status rule;
  - the selection of the first well-known account record;
  - sorting the ticker's asset records by account count and trimming them;
  - the price request URL and the selection of a quote.
- **The settings provider** (`Settings`, settings.dfy). It covers:
  - the initial settings;
  - loading;
  - merging partial updates;
  - the toggles, including biometric lock after authentication;
  - the list of ignored signature requests, which ignoring never duplicates;
  - the context value handed to consumers.

Two supporting modules hold shared pieces:

- `Text` (text.dfy) models the JavaScript string operations the wallet relies on: `split`, `trim`, ASCII `toLowerCase`, `includes`, the `^[0-9]+$` test and `URLSearchParams.get`.
- `StellarTypes` (stellar_types.dfy) and `Wrappers` (wrappers.dfy) hold the asset and memo values and `Option`/`Result`.

How external pieces are modelled:

- Library predicates become function-typed parameters. These are `isPublicKey`, `isStellarAddress` and `lookupFederationRecord`.
- Network answers become parameters: fetched responses, looked-up records and order-book bids.
- Amounts and prices are exact reals.

## Model

| member | source | states |
|---|---|---|
| Payment.CreateMemo | src/Payment/components/PaymentForm.tsx:53-62 | an "id" type gives an id memo and a "text" type a text memo, each carrying the value unchanged; any other type gives no memo |
| Payment.CreateMemoInverse | src/Payment/components/PaymentForm.tsx:53-62 | `createMemo` never builds a hash or return memo, and every memo it can build is rebuilt from its own type and value |
| Payment.MemoTypeAfterEdit | src/Payment/components/PaymentForm.tsx:441-447 | an empty memo gets type "none"; typing into a "none" memo makes it "text"; otherwise the type is kept |
| Payment.MemoTypeAfterEditProperties | src/Payment/components/PaymentForm.tsx:441-447 | the edited type is "none" exactly when the memo is empty, and editing with the same value again changes nothing |
| Payment.FederationMemoType | src/Payment/components/PaymentForm.tsx:184-187 | the forced type is "id" exactly when memo_type is present, non-empty and, lower-cased, does not contain "text"; otherwise it is "text" |
| Payment.FederationMemoTypeOfSep2Types | src/Payment/components/PaymentForm.tsx:184-187 | SEP-0002 memo types: "text" and "TEXT" give text, "id" and "hash" give id, a missing or empty type gives text |
| Payment.AcceptedLookupRecord | src/Payment/components/PaymentForm.tsx:255-261 | a lookup answer is kept as the matching record exactly when it names both a memo and a memo type; otherwise the match is cleared |
| Payment.DirectoryMemoMetadata | src/Payment/components/PaymentForm.tsx:161-175 | the memo is required, with the required label and the mandatory placeholder, exactly when the matched account's tags hold "memo-required"; otherwise the metadata is the default |
| Payment.FederationMemoMetadata | src/Payment/components/PaymentForm.tsx:189-193 | a federation record always makes the memo required; the label is the id label for an id memo and the text label otherwise |
| Payment.ValidateAmount | src/Payment/components/PaymentForm.tsx:321-331 | the amount passes exactly when it is a non-zero valid amount no larger than the spendable balance; an empty amount is "no price"; an invalid or zero amount is "invalid price"; a larger amount is "not enough funds" |
| Payment.AmountAtBalanceBoundary | src/Payment/components/PaymentForm.tsx:326-330 | the whole spendable balance may be sent, and any positive excess is refused for lack of funds |
| Payment.SpendableInAmountUnit | src/Payment/components/PaymentForm.tsx:124-135 | an amount typed in an asset is checked against the spendable balance itself; one typed in a currency is checked against that balance converted by the selected currency's estimate |
| Payment.NoPriceRefusesCurrencyAmounts | src/Payment/components/PaymentForm.tsx:124-135 | until an XLM price has arrived, every positive amount typed in a currency is refused as "not enough funds" |
| Payment.ValidateMemo | src/Payment/components/PaymentForm.tsx:421-439 | the memo passes exactly when it has at most 28 characters, is non-empty if a memo is required and a well-known account matched, and is all digits for an id memo; the length error comes first, and the missing-memo error is reported before the digits check |
| Payment.FederationRequirementAloneAcceptsEmptyMemo | src/Payment/components/PaymentForm.tsx:424-434 | a memo required only by a federation record, with no well-known account matched, does not reject an empty text memo |
| Payment.ValidateDestination | src/Payment/components/PaymentForm.tsx:238-247 | an empty destination is "no destination"; a federation address with no matching record is "not found"; otherwise it passes exactly when it is a public key or a federation address |
| Payment.MemolessFederationAddressRejected | src/Payment/components/PaymentForm.tsx:240-261 | a federation address whose lookup returns a record without a memo is reported as not found |
| Payment.ValidateResolvedDestination | src/Payment/components/PaymentForm.tsx:238-247 | with the corrected rule, the destination passes exactly when it is non-empty, a public key or a federation address, and not a federation address whose lookup returned no record; "invalid" is reported exactly for a non-empty destination that is neither; "not found" exactly when the address is a federation address and the lookup returned no record |
| Payment.ResolvedFederationAddressAccepted | src/Payment/components/PaymentForm.tsx:238-261 | with the corrected rule, every federation address that the lookup resolved is accepted, with or without a memo |
| Payment.ParseQrPayload | src/Payment/components/PaymentForm.tsx:197-215 | the destination is the text before the first "?", a prefix of the payload that holds no "?"; a payload without "?" is all destination with no memo; a memo is read exactly when the query after the "?" has a `dt` parameter (its first non-empty pair named `dt`) with a non-empty value, and it is that value |
| Payment.QrPayloadWithQuery | src/Payment/components/PaymentForm.tsx:197-215 | for any query of `&`-separated pairs, the memo is the value of the first non-empty pair named `dt` when that value is non-empty, and there is none otherwise; pairs before or after it do not matter |
| Payment.QrPayloadWithAmountFirst | src/Payment/components/PaymentForm.tsx:197-215 | `<destination>?amount=<a>&dt=<memo>` still yields the destination and the memo |
| Payment.QrPayloadRoundTrip | src/Payment/components/PaymentForm.tsx:197-215 | reading `<destination>?dt=<memo>` gives back the destination and the memo |
| Payment.EventualAmount | src/Payment/components/PaymentForm.tsx:144-151 | an amount typed in the selected asset is sent as typed, with an empty one read as 0; an amount typed in a currency, or an empty one, is converted to the asset; the result is invalid exactly when the typed amount is |
| Payment.CurrencyPaymentKeepsValue | src/Payment/components/PaymentForm.tsx:144-151 | paying in a currency for XLM at a stable positive price sends an XLM amount whose value in that currency is exactly the amount typed |
| Payment.FindTrustedAsset | src/Payment/components/PaymentForm.tsx:519 | an asset is found exactly when it is among the trusted assets, and then the result is that asset |
| Payment.CreatePaymentTx | src/Payment/components/PaymentForm.tsx:518-541 | building fails exactly when the destination holds "*" and its lookup fails; otherwise there is one payment, of the eventual amount, in the trusted asset or XLM; it goes to the looked-up account for a resolved federation address and to the typed destination otherwise; the memo is `createMemo` of the form's memo; the minimum fee is the multisig fee exactly when the account has more than one signer; a failure carries the lookup's own error |
| Payment.SubmitPayment | src/Payment/components/PaymentForm.tsx:490 | a transaction is built exactly when the amount, memo and destination rules all pass, and it is the one `createPaymentTx` builds; otherwise each field shows the error its own rule reports, and none where its rule passes; an amount above the spendable balance never reaches it |
| Payment.ScenarioTransaction | src/Payment/components/PaymentForm.tsx:518-541 | a federation address that resolves to an account with id memo "42", sent from an account with two signers, gives an id memo "42", that account as destination and the multisig fee |
| Payment.PaymentForm.constructor | src/Payment/components/PaymentForm.tsx:88-107 | the form starts with empty amount, destination and memo, XLM as asset and amount unit, no matches and the default memo metadata |
| Payment.PaymentForm.ChangeAmount | src/Payment/components/PaymentForm.tsx:316-335 | the typed amount replaces the amount and nothing else changes |
| Payment.PaymentForm.SelectAsset | src/Payment/components/PaymentForm.tsx:275-296 | the selected asset replaces the asset and nothing else changes |
| Payment.PaymentForm.SelectAmountType | src/Payment/components/PaymentForm.tsx:298-314 | the selected unit replaces the amount type and nothing else changes |
| Payment.PaymentForm.SyncAmountType | src/Payment/components/PaymentForm.tsx:137-142 | an amount typed in an asset follows the selected asset; a currency unit is left alone |
| Payment.PaymentForm.UpdateEventualAmount | src/Payment/components/PaymentForm.tsx:144-151 | only the eventual amount changes, to `EventualAmount` of the current values |
| Payment.PaymentForm.MatchWellknownAccount | src/Payment/components/PaymentForm.tsx:153-159 | a destination that is a public key or a federation address takes the directory's answer as its well-known account when the lookup resolves, and keeps the previous match when it is rejected; any other destination clears the match |
| Payment.PaymentForm.ApplyDirectoryMemoPolicy | src/Payment/components/PaymentForm.tsx:161-175 | the memo metadata becomes the directory's, required exactly for a "memo-required" account; memo type and value are untouched |
| Payment.PaymentForm.ApplyFederationMemoPolicy | src/Payment/components/PaymentForm.tsx:181-195 | with a matching record, its memo and forced type replace the form's memo and the memo becomes required; without one nothing changes |
| Payment.PaymentForm.HandleQrScan | src/Payment/components/PaymentForm.tsx:197-215 | the scanned destination replaces the destination; a `dt` memo sets an id memo; otherwise the memo fields are unchanged |
| Payment.PaymentForm.ChangeDestination | src/Payment/components/PaymentForm.tsx:251-255 | the trimmed input becomes the destination and is the string the lookup is started for |
| Payment.PaymentForm.FederationLookupSucceeded | src/Payment/components/PaymentForm.tsx:255-261 | the match becomes the accepted lookup record, with no check that the destination is still the one looked up; only records with a memo are ever held |
| Payment.PaymentForm.FederationLookupFailed | src/Payment/components/PaymentForm.tsx:262-267 | a failure clears the match only when the failed destination is still the form's destination; a stale failure changes nothing |
| Payment.PaymentForm.ChangeMemo | src/Payment/components/PaymentForm.tsx:411-447 | while no federation record matches, the typed value becomes the memo and the type follows `MemoTypeAfterEdit` |
| EcosystemHooks.PriceConversion.constructor | src/Generic/hooks/stellar-ecosystem.ts:30 | the price starts at 0, so every conversion starts at 0 |
| EcosystemHooks.PriceConversion.PriceFetched | src/Generic/hooks/stellar-ecosystem.ts:32-40 | each fetched price replaces the previous one |
| EcosystemHooks.ConvertXlm | src/Generic/hooks/stellar-ecosystem.ts:45-47 | a conversion is 0 exactly when the price or the amount is 0; at a positive price it is positive exactly when the amount is |
| EcosystemHooks.ConvertXlmProperties | src/Generic/hooks/stellar-ecosystem.ts:42-49 | with no price every XLM conversion is 0; conversion is additive; 1 XLM converts to the price |
| EcosystemHooks.BestPrice | src/Generic/hooks/stellar-ecosystem.ts:68-70 | the price of the first bid, or 0 for an empty book |
| EcosystemHooks.FiatEstimate | src/Generic/hooks/stellar-ecosystem.ts:54-82 | XLM is priced at the XLM price and converts through it; any other asset is priced at its best bid in XLM and converts its XLM value through the XLM price |
| EcosystemHooks.AssetPrice | src/Generic/hooks/stellar-ecosystem.ts:89-92 | a positive XLM price gives its positive inverse; any other price gives 0 |
| EcosystemHooks.AssetEstimate | src/Generic/hooks/stellar-ecosystem.ts:84-117 | a currency converts to XLM through the inverse price, and to any other asset further through the best bid |
| EcosystemHooks.EmptyBookEstimatesZero | src/Generic/hooks/stellar-ecosystem.ts:68-77 | an empty order book prices a non-native asset at 0 and converts every amount to 0 in both directions |
| EcosystemHooks.NoPriceEstimatesZero | src/Generic/hooks/stellar-ecosystem.ts:89-113 | at XLM price 0 (before the first fetch answers) every fiat conversion and every asset estimate is 0 |
| EcosystemHooks.NativeRoundTrip | src/Generic/hooks/stellar-ecosystem.ts:59-101 | at a stable positive price, XLM to currency and back, and currency to XLM and back, give the original amount |
| NetWorker.StellarExpertStatus | src/Workers/net-worker/stellar-ecosystem.ts:12-17 | a status from 400 up, and only such a status, is a `BadResponseError` carrying that status and the server "stellar.expert" |
| NetWorker.DirectoryRequestUrl | src/Workers/net-worker/stellar-ecosystem.ts:8 | the request is the directory endpoint with the `address[]` query followed by the account id |
| NetWorker.DirectoryRequestUrlInjective | src/Workers/net-worker/stellar-ecosystem.ts:8 | different accounts never share a request URL |
| NetWorker.WellknownAccountOf | src/Workers/net-worker/stellar-ecosystem.ts:7-23 | an error exactly from status 400 up; otherwise the first directory record, present exactly when there is one |
| NetWorker.ByAccountCountSorter | src/Workers/net-worker/stellar-ecosystem.ts:25-27 | the comparator is negative exactly when the first record has more accounts, and zero exactly on equal counts |
| NetWorker.InsertByAccountCount | src/Workers/net-worker/stellar-ecosystem.ts:58 | inserting into a list sorted most-accounts-first keeps it sorted and adds exactly the one record |
| NetWorker.SortByAccountCount | src/Workers/net-worker/stellar-ecosystem.ts:58 | the result is sorted most-accounts-first and is a permutation of the input |
| NetWorker.TrimAccountRecord | src/Workers/net-worker/stellar-ecosystem.ts:29-43 | code, description, issuer, issuer name and url, name, account count, status and type are kept; every other field is dropped |
| NetWorker.TrimAccountRecordIdempotent | src/Workers/net-worker/stellar-ecosystem.ts:29-43 | trimming a trimmed record changes nothing |
| NetWorker.TrimAll | src/Workers/net-worker/stellar-ecosystem.ts:58 | each record is trimmed position by position, and the length is kept |
| NetWorker.TrimAllKeepsOrder | src/Workers/net-worker/stellar-ecosystem.ts:58 | trimming keeps the account counts, so a sorted list stays sorted |
| NetWorker.TrimAllSortIsPermutation | src/Workers/net-worker/stellar-ecosystem.ts:58 | sorting and then trimming gives the trimmed input records, reordered |
| NetWorker.AllAssetsOf | src/Workers/net-worker/stellar-ecosystem.ts:45-60 | an error exactly from status 400 up; otherwise every record, trimmed, none lost or duplicated, sorted most-accounts-first |
| NetWorker.QuotesEndpoint | src/Workers/net-worker/stellar-ecosystem.ts:80-82 | the testnet URL `https://api.satoshipay.io/testnet/coinmarketcap/v1/cryptocurrency/quotes/latest` on testnet and the mainnet one otherwise; the network name follows the host |
| NetWorker.CryptoPriceRequestUrl | src/Workers/net-worker/stellar-ecosystem.ts:79-84 | the request is the network's quotes endpoint, the `symbol=XLM&convert=` query, then the currency code |
| NetWorker.CryptoPriceRequestUrlInjective | src/Workers/net-worker/stellar-ecosystem.ts:79-84 | the request URL tells apart both the network and the currency |
| NetWorker.CryptoPriceOf | src/Workers/net-worker/stellar-ecosystem.ts:86-94 | an error naming the status exactly from status 400 up; otherwise the currency's quote, present exactly when the response has one |
| Settings.MergeSettings | src/context/settings.tsx:101-112 | each field present in the update replaces the stored one (for the terms date, even an explicitly undefined one); each absent field keeps its value; `initialized` is never touched |
| Settings.MergeSettingsIdempotent | src/context/settings.tsx:101-112 | applying the same update twice is applying it once |
| Settings.ToggleUpdate | src/context/settings.tsx:115-125 | a toggle's update names only its own flag, holding the negation of the current value |
| Settings.ToggleFlipsOnlyItsFlag | src/context/settings.tsx:115-125 | a toggle flips its own flag and leaves the other flags, the terms date and `initialized` unchanged |
| Settings.ToggleTwiceRestores | src/context/settings.tsx:115-125 | toggling the same flag twice restores the settings |
| Settings.AppendIfAbsent | src/context/settings.tsx:93-99 | the old list is a prefix of the result; the result holds the old hashes plus the new one; it grows by one exactly when the hash was absent |
| Settings.AppendIfAbsentIdempotent | src/context/settings.tsx:93-99 | ignoring the same request twice is ignoring it once |
| Settings.AppendIfAbsentKeepsDistinct | src/context/settings.tsx:93-99 | a list without duplicates stays without duplicates |
| Settings.MultiSignatureServiceUrl | src/context/settings.tsx:49 | a non-empty `MULTISIG_SERVICE` value is the URL; otherwise the SatoshiPay default, which is never empty |
| Settings.SettingsProvider.constructor | src/context/settings.tsx:38-47 | the settings start uninitialized, with no terms date, every flag off and no ignored requests |
| Settings.SettingsProvider.Load | src/context/settings.tsx:78-91 | a successful load overlays the loaded fields on the initial settings, marks them initialized and takes the loaded hashes; a failed load changes nothing |
| Settings.SettingsProvider.IgnoreSignatureRequest | src/context/settings.tsx:93-99 | the hash is appended only if absent, and a list without duplicates stays so |
| Settings.SettingsProvider.UpdateSettings | src/context/settings.tsx:101-112 | the settings become the merge of the update into the current settings |
| Settings.SettingsProvider.ConfirmToC | src/context/settings.tsx:114 | only the terms date changes, to the given time |
| Settings.SettingsProvider.ToggleMultiSignature | src/context/settings.tsx:115 | only the multisignature flag changes, to its negation |
| Settings.SettingsProvider.ToggleTestnet | src/context/settings.tsx:116 | only the testnet flag changes, to its negation |
| Settings.SettingsProvider.ToggleHideMemos | src/context/settings.tsx:117 | only the hide-memos flag changes, to its negation |
| Settings.SettingsProvider.ToggleBiometricLock | src/context/settings.tsx:119-127 | after successful authentication only the biometric lock flips; after failed authentication nothing changes |
| Settings.SettingsProvider.Context | src/context/settings.tsx:129-145 | the context shows every stored setting under its context name, the ignored requests and the service URL |
| Text.Split | src/Payment/components/PaymentForm.tsx:199 | `split` yields at least one piece, no piece holds the separator, and there is exactly one piece when the separator is absent |
| Text.JoinSplit | src/Payment/components/PaymentForm.tsx:199 | joining the pieces of a split with the separator gives back the string |
| Text.SplitJoin | src/Payment/components/PaymentForm.tsx:199 | splitting a join of separator-free pieces gives back the pieces |
| Text.Trim | src/Payment/components/PaymentForm.tsx:252 | the result is the slice of the input left after removing only white space from its two ends, it neither starts nor ends with white space, and it is the input itself when that holds no white space |
| Text.TrimIdempotent | src/Payment/components/PaymentForm.tsx:252 | trimming twice is trimming once |
| Text.QueryParam | src/Payment/components/PaymentForm.tsx:206-207 | an empty query has no parameter; a query of one pair has the asked parameter exactly when the pair's name matches, and its value is the pair's value |
| Text.ContainsOccurs | src/Payment/components/PaymentForm.tsx:185 | `includes` holds exactly when the substring occurs at some index of the string |
| Text.ToLower | src/Payment/components/PaymentForm.tsx:185 | the length is kept, no upper-case ASCII letter is left, each letter becomes its lower case and every other character stays |
| Text.DigitsAreUnsigned | src/Payment/components/PaymentForm.tsx:437 | a string passing the `^[0-9]+$` test holds no sign, decimal point or white space, and trimming leaves it unchanged |
| Text.FirstParam | src/Payment/components/PaymentForm.tsx:206-207 | a value found is the value of the first non-empty pair with the asked name, every earlier pair being empty or named otherwise; when none is found, no non-empty pair has that name |

## Left out

- Network access, timers, persistence, translation, React rendering and the biometric APIs are outside the model. Fetched responses, lookup answers, order-book bids, the clock (`new Date().toISOString()`) and the outcome of biometric authentication are parameters.
- `isPublicKey`, `isStellarAddress`, `lookupFederationRecord` and the well-known accounts lookup are library code. They are passed in as functions or as their answers.
- `getSpendableBalance`, `getAccountMinimumBalance`, `findMatchingBalanceLine`, `createPaymentOperation`, `createTransaction` and `Memo.id`/`Memo.text` are library code. The spendable balance is a parameter. The transaction is the record of what is handed to `createTransaction`. The SDK's own memo validation is not modelled.
- `isValidAmount`, `FormBigNumber`, `Number(...)` and `replaceCommaWithDot` are reduced to the three-way `AmountInput` classification. Decimal parsing and comma handling are not modelled.
- Payment.ValidateAmount: an `Amount` carries any real the classification hands it, negative ones included. Whether `isValidAmount` lets a minus sign through is library code that is not part of this model, so the model does not promise that a negative amount is refused.
- Payment.EventualAmount: an amount `Number` cannot read, typed in a currency, becomes `NaN`, and the big.js conversion in src/Generic/hooks/stellar-ecosystem.ts (lines 99 and 110) throws on it. The model yields `InvalidAmount` there instead of modelling that exception.
- Payment.EventualAmount: the `toFixed(2)` rounding of converted amounts is not modelled, because amounts are exact reals.
- Payment.EventualAmount: the test `amountType === asset` compares object identity in the source. The model compares values and relies on `SyncAmountType` to make the two the same object.
- Floating-point and BigNumber arithmetic in the estimates are modelled as exact real arithmetic.
- `URLSearchParams` percent-decoding and `+`-as-space are not modelled, so `dt` values are taken literally.
- `toLowerCase` is modelled on ASCII letters only. Lengths count UTF-16 code units in the source and characters in the model.
- The helper text of the eventual-amount field (lines 351-398) is display only and is not modelled.
- The memo-type selector (lines 400-409) is a plain setter of `memoType` and is not modelled separately.
- Payment.PaymentForm.MatchWellknownAccount: the directory lookup is asynchronous, and its answer is applied with no check that the destination is still the one looked up. The model applies the answer in the same step, so a stale answer overwriting a newer destination's match is not captured. A rejected lookup (there is no `.catch` on line 155) is modelled as leaving the previous match in place; the unhandled rejection itself is not.
- Settings.SettingsProvider.ToggleBiometricLock: the source merges the toggle into the settings captured when the toggle was called, so any change that lands while authentication is pending (the initial load, another toggle) is reverted. The model merges into the settings current when the answer arrives.
- EcosystemHooks.PriceConversion.PriceFetched: after a currency or network switch the old price stays until the new fetch answers, and a pending fetch for the old currency is not cancelled by `clearInterval`, so a late answer can overwrite the new price. The model treats each answer as one atomic replacement and does not track which currency it belongs to.
- Settings.MergeSettings: a flag present in an update but explicitly undefined is not representable; flags in an update are either absent or a boolean. Only the terms date can be present-but-undefined.
- NetWorker.SortByAccountCount: the model's insertion sort keeps ties in input order like `Array.prototype.sort`, but stability is not stated in its contract.
- `new URL("/assets.json", tickerURL)` URL resolution is not modelled. `AllAssetsOf` starts from the fetched response.
- `fetchStellarToml` and `resolveStellarAddress` only forward to the SDK and are not modelled.
- Biometric availability (`isBiometricAuthAvailable`) is not modelled. The context value omits it.
- EcosystemHooks.PriceConversion.PriceFetched: the price arrives as a number. The shape of the price module's own `fetchCryptoPrice` answer, which lives in src/Generic/lib/currency-conversion, is not part of this model.
- The `useTickerAssets` and `useWellKnownAccounts` hooks (lines 12-27 of src/Generic/hooks/stellar-ecosystem.ts) are thin wrappers over a cache and the directory fetch and are not modelled; the fetches they wrap are.
- Payment.PaymentForm.ApplyDirectoryMemoPolicy: the form's effects are modelled as separate steps that a caller runs in any order, and React's scheduling of them is not. In the source, the federation effect's `setValue("memoValue", ...)` (line 183) re-runs the directory effect, whose dependencies include `formValues.memoValue` (line 175); that effect then overwrites the federation memo metadata set at line 189, so the federation label and required flag do not survive. `FederationPaymentScenario` runs the directory step first and the federation step last, which is the outcome the federation effect evidently intends, not the one the source reaches.

## Findings

| source | as written | input that shows it | evidently intended | confidence | as-written member | corrected member |
|---|---|---|---|---|---|---|
| src/Payment/components/PaymentForm.tsx:240-261 | The destination handler keeps a federation record only if it names a memo and a memo type. The destination validator reports "stellar-address-not-found" whenever no record is kept. | Destination `bob*example.com` whose federation server answers `{account_id: "G…"}` with no memo. | A federation address that resolves is accepted. A missing memo only means that no memo is forced. | medium, not executed | Payment.MemolessFederationAddressRejected | Payment.ResolvedFederationAddressAccepted |
