# Stellar wallet core: multi-signature plumbing, formatters and review rules

This project models the logic parts of a Stellar wallet in Dafny and proves properties of them.

Multi-signature plumbing:

- **The coordinator resolver.** It maps a domain to the `MULTISIG_ENDPOINT` field of the domain's stellar.toml discovery document (SEP-0001). It keeps a permanent success cache and a map of pending lookups. The model is the class `MultisigDiscovery.CoordinatorResolver`. Every asynchronous step is an explicit method: a call, the call resuming after its `await`, and the fetch settling.
- **The signature-request client** of the network worker. It covers de-duplication of account ids, the snapshot request path and its error rule, and the stream path. It also covers the normaliser that turns one message, holding one item or a batch, into typed events. Finally, it covers the reconnecting subscription. The model is the class `MultisigWorker.Subscription`, driven by `Init`, `OnMessage`, `OnError`, `TimerFires`, `BackOnline` and `Teardown`.

Pure helpers:

- **The transfer-service formatters**: `formatDuration`, `formatBalanceRange`, `formatIdentifier` and `formatDescriptionText`, each with the helpers it uses.
- **Address checks.** The public-key shape check and the `name*domain` federation-address check (SEP-0002). A left-to-right recogniser models each regular expression, and a lemma shows the recogniser accepts exactly the pattern's language. The federation lookup and its two caches are the class `StellarAddress.FederationLookup`.
- **Transaction review.** The SEP-0010 web-authentication challenge test, the rule for when an operation's source is shown, the displayed fee, and the title of the review dialog.
- **The public-key abbreviation.**
- **The trading form.** The amount pattern, the manual-price updaters, the derived price and amounts, and when the submit button is disabled.

Every environment input is a parameter of the method or function that reads it:

- the network (`fetch`, `EventSource`, the federation resolver);
- `Date.now`;
- `navigator.onLine`;
- an `EventSource`'s `readyState`;
- the outcome of a stellar.toml fetch.

`formatBalance` and `isStellarWebAuthTransaction` are parameters too. Amounts are exact reals. Strings are sequences of characters, with ASCII case mapping.

The files:

- `wrappers.dfy`: `Option` and `Result`.
- `strings.dfy`: character classes, ASCII case mapping, `split`/`join` with JavaScript behaviour (the round trip in both directions), and decimal digit strings.
- `multisig_worker.dfy`, `multisig_discovery.dfy`, `formatters.dfy`, `stellar_address.dfy`, `transaction_summary.dfy`, `transaction_review_dialog.dfy`, `short_public_key.dfy`, `trading_form.dfy`: one module per source file.
- `stellar_types.dfy`: the parts of a transaction and its operations that the review rules read.

Behaviours of the code that a reader might not expect, all of which the model keeps:

- A domain without a usable endpoint stays in the pending map. The throw comes before the delete, so every later call gets the same failure, and nothing is fetched again for that domain as long as that pending entry stays. A rejected fetch running in the same gap at the `await` does delete it.
- Lookups are coalesced only for calls made after the first call passed its `await`. Two calls made before that both fetch (`MultisigDiscovery.CallsBeforeRegistrationFetchTwice`).
- The amount pattern accepts `,` as the decimal separator, but big.js throws on it. So `price` and `primaryAmount` throw on such text. The model returns `None` there.
- In the secondary price mode a typed price of `0` is valid but its reciprocal throws. The model returns `None` there too.
- The displayed fee is the transaction's fee field times the number of operations. The fee field already is the total of the transaction, so the displayed fee is too high for more than one operation (see "## Findings").
- Tearing down a subscription closes only the newest connection. It does not cancel a scheduled reconnect or a back-online registration, so a reconnect after teardown opens a new connection whose messages are again passed to `observer.next` (`MultisigWorker.TeardownKeepsScheduledReconnect`).

## Model

| member | source | states |
|---|---|---|
| MultisigWorker.Dedupe | src/workers/net-worker/multisig.ts:6 | the result holds exactly the elements of the list, with no repeats, and is no longer than the list |
| MultisigWorker.DedupeKeepsFirstOccurrenceOrder | src/workers/net-worker/multisig.ts:6 | kept elements appear in the order of their first occurrences in the input |
| MultisigWorker.DedupeWithoutRepeats | src/workers/net-worker/multisig.ts:6 | a list without repeats comes back unchanged |
| MultisigWorker.DedupeIdempotent | src/workers/net-worker/multisig.ts:6 | de-duplicating twice is de-duplicating once |
| MultisigWorker.DedupeIgnoresRepeat | src/workers/net-worker/multisig.ts:6 | appending an id that is already present changes nothing |
| MultisigWorker.DedupeExample | src/workers/net-worker/multisig.ts:6 | ["A","A","B"] becomes ["A","B"] |
| MultisigWorker.ToArray | src/workers/net-worker/multisig.ts:7 | a batch comes back as it is; a single item becomes a one-element list |
| MultisigWorker.RequestsPath | src/workers/net-worker/multisig.ts:10 | the snapshot path is "/requests/" followed by text that splits at "," into exactly the de-duplicated ids, when there is an id and none holds a comma |
| MultisigWorker.StreamPath | src/workers/net-worker/multisig.ts:42 | the stream path is "/stream/" followed by text that splits at "," into exactly the de-duplicated ids, when there is an id and none holds a comma |
| MultisigWorker.PathsIgnoreRepeats | src/workers/net-worker/multisig.ts:42 | repeating an id changes neither the stream path nor the snapshot path |
| MultisigWorker.FetchSignatureRequests | src/workers/net-worker/multisig.ts:9-18 | fails exactly when the response is not OK; the message is the fixed prefix, then the body text, then "\nService: ", then the service URL; otherwise it returns the decoded body |
| MultisigWorker.ChannelOf | src/workers/net-worker/multisig.ts:55-92 | each of the three listened event names maps to its own channel, in both directions; any other name has no listener |
| MultisigWorker.Normalize | src/workers/net-worker/multisig.ts:58-63 | one event per item, in payload order, each of the channel's type and carrying the decoded item |
| MultisigWorker.NormalizeConcat | src/workers/net-worker/multisig.ts:58 | the events of a concatenation are the events of its parts, in order, so a batch emits what sending its items one by one would |
| MultisigWorker.BatchEmitsOnePerItem | src/workers/net-worker/multisig.ts:55-92 | a batch of n items emits exactly n events, the i-th typed by the channel and carrying item i |
| MultisigWorker.MessageEvents | src/workers/net-worker/multisig.ts:55-92 | a message emits nothing for an unlistened name and the normalised payload otherwise |
| MultisigWorker.Subscription.constructor | src/workers/net-worker/multisig.ts:37-53 | an empty id list opens no connection; otherwise `init` runs once: connection 1, handler installed, `lastErrorTime` 0, nothing emitted, logged or scheduled |
| MultisigWorker.Subscription.Init | src/workers/net-worker/multisig.ts:49-53 | a fresh connection number with the recovery handler installed; the timer, the back-online registration, the logs and the closed set are unchanged |
| MultisigWorker.Subscription.OnMessage | src/workers/net-worker/multisig.ts:55-92 | the event log grows by exactly the message's events while the current connection is open, and by nothing otherwise |
| MultisigWorker.Subscription.OnError | src/workers/net-worker/multisig.ts:98-113 | with the handler installed: the first clock reading is logged iff it is more than 10000 ms after the last error, and `lastErrorTime` becomes the second reading. Offline: the handler is cleared, the connection unsubscribed and init registered for back-online, with no timer. Online and CLOSED: the handler is cleared and a 500 ms timer scheduled, with no unsubscribe. Otherwise nothing changes. With the no-op handler nothing changes at all |
| MultisigWorker.Subscription.TimerFires | src/workers/net-worker/multisig.ts:111 | the timer calls init: a new connection, no timer left |
| MultisigWorker.Subscription.BackOnline | src/workers/net-worker/multisig.ts:108 | the back-online callback calls init: a new connection, no registration left |
| MultisigWorker.Subscription.Teardown | src/workers/net-worker/multisig.ts:118 | closes only the newest connection and changes nothing else, so a scheduled timer or registration survives |
| MultisigWorker.EmptySubscriptionIsSilent | src/workers/net-worker/multisig.ts:38-40 | with no ids, no connection is opened and nothing is emitted, whatever messages and errors arrive |
| MultisigWorker.OfflineErrorWaitsForNetwork | src/workers/net-worker/multisig.ts:105-108 | an offline error waits for the network without a timer; back online, a second connection opens |
| MultisigWorker.TeardownKeepsScheduledReconnect | src/workers/net-worker/multisig.ts:109-118 | after a CLOSED error and a teardown, the timer still reconnects and the new connection's messages are still passed to `observer.next` |
| MultisigDiscovery.LocatedEndpoint | src/Generic/lib/multisig-discovery.ts:17-18 | an endpoint is located exactly when the document and the field are present and the field is non-empty |
| MultisigDiscovery.CoordinatorResolver.constructor | src/Generic/lib/multisig-discovery.ts:5-6 | both maps start empty and no fetch has started |
| MultisigDiscovery.CoordinatorResolver.Resolve | src/Generic/lib/multisig-discovery.ts:8-14 | a cache hit returns the cached endpoint and a pending hit joins the pending operation, neither changing anything; otherwise the call is suspended at the `await` and registers nothing in the pending map yet |
| MultisigDiscovery.CoordinatorResolver.Resume | src/Generic/lib/multisig-discovery.ts:14-34 | after the `await` exactly one fetch starts, and it is stored as the domain's pending entry, overwriting any entry stored meanwhile |
| MultisigDiscovery.CoordinatorResolver.SettleFetchOk | src/Generic/lib/multisig-discovery.ts:16-27 | a located endpoint is cached, its pending entry deleted and the endpoint returned; otherwise the result is "not locatable" for the domain, and the cache and the pending map stay as they were |
| MultisigDiscovery.CoordinatorResolver.SettleFetchErr | src/Generic/lib/multisig-discovery.ts:28-31 | a rejected fetch deletes the pending entry, rethrows, and leaves the cache alone |
| MultisigDiscovery.CallsAfterRegistrationShareOneFetch | src/Generic/lib/multisig-discovery.ts:11-12 | a call after the first fetch was registered joins it, so one fetch is made; after it settles, the next call hits the cache |
| MultisigDiscovery.CallsBeforeRegistrationFetchTwice | src/Generic/lib/multisig-discovery.ts:14-34 | two calls made before the registration at line 34 start two fetches |
| MultisigDiscovery.NotLocatableIsSticky | src/Generic/lib/multisig-discovery.ts:18-25 | after a "not locatable" result, a later call joins the failed operation and no new fetch is made |
| MultisigDiscovery.RejectionAllowsRetry | src/Generic/lib/multisig-discovery.ts:28-31 | after a rejected fetch, the next call starts over |
| Formatters.IsCommonAbbreviation | src/TransferService/util/formatters.ts:4 | true exactly for bic, iban, sepa and swift, all lower-case words of at least three letters |
| Formatters.UppercaseIfCommonAbbreviation | src/TransferService/util/formatters.ts:8 | an abbreviation is fully upper-cased; any other word is unchanged |
| Formatters.UppercaseFirstLetter | src/TransferService/util/formatters.ts:9 | same length; the first character upper-cased and the rest unchanged; an empty string is outside the domain because `str[0]` is undefined there |
| Formatters.RoundedQuotient | src/TransferService/util/formatters.ts:48 | the result is n/d rounded to the nearest whole number, halves rounding up |
| Formatters.DurationCount | src/TransferService/util/formatters.ts:42-54 | none exactly outside 0 to 31536000 seconds; otherwise the unit is seconds below 90, minutes below 5400, hours below 172800, and days from there on, and the count is the seconds themselves, or the seconds divided by 60, 3600 or 86400 and rounded half up |
| Formatters.FormatDuration | src/TransferService/util/formatters.ts:43-44 | the text is "<illegal value>" exactly for negative input or input over a year |
| Formatters.DurationCountBounds | src/TransferService/util/formatters.ts:45-53 | the printed count is 0..89 seconds (the input itself), 2..90 minutes, 2..48 hours, or 2..365 days |
| Formatters.ParseFormatDuration | src/TransferService/util/formatters.ts:42-54 | reading the text back yields the count and unit that were printed, and the illegal-value text reads as nothing, so the text determines them |
| Formatters.UpperBound | src/TransferService/util/formatters.ts:17 | the upper end is the smaller of the balance and the maximum, and the balance when there is no maximum |
| Formatters.FormatBalanceRange | src/TransferService/util/formatters.ts:11-32 | without a positive minimum, "Max. " and the upper end; with a minimum above the upper end, "Not possible - Minimum " and the minimum; otherwise "min - max". The "Min." and empty branches cannot happen |
| Formatters.ReplaceSeparators | src/TransferService/util/formatters.ts:58 | each '-' and '_' becomes a space and every other character stays, at the same position |
| Formatters.FirstWordNonEmpty | src/TransferService/util/formatters.ts:58-60 | the first word handed to `uppercaseFirstLetter` is non-empty exactly when the identifier is non-empty and does not start with a space, '-' or '_'; that is the precondition of the identifier members |
| Formatters.CapitalizedWords | src/TransferService/util/formatters.ts:60 | only the first word changes, and it has its first letter upper-cased |
| Formatters.AbbreviationsUppercased | src/TransferService/util/formatters.ts:61 | each word is mapped on its own by the abbreviation rule |
| Formatters.FormatIdentifierProperties | src/TransferService/util/formatters.ts:56-63 | the output has no '-' or '_', the length of the input and the same number of space-separated words. The first word has only its first letter capitalised, and is never fully upper-cased. Every later word is upper-cased exactly when it is a common abbreviation |
| Formatters.FormatIdentifier | src/TransferService/util/formatters.ts:56-63 | the output has the input's length and holds no '-' or '_' |
| Formatters.CapitalizeSentencesAt | src/TransferService/util/formatters.ts:36 | a character changes exactly when it follows ". ", and then it is upper-cased |
| Formatters.CapitalizeSentences | src/TransferService/util/formatters.ts:36 | the length is kept; what happens at each position is stated by `CapitalizeSentencesAt` |
| Formatters.WordLength | src/TransferService/util/formatters.ts:37 | the leading run of word characters ends at the first non-word character |
| Formatters.UppercaseAbbreviations | src/TransferService/util/formatters.ts:37 | the length is kept |
| Formatters.ReplaceWord | src/TransferService/util/formatters.ts:37 | the matched word is replaced by what the abbreviation rule makes of it, so its length is kept |
| Formatters.ScanWordsSplit | src/TransferService/util/formatters.ts:37 | the replacement acts independently on the two sides of a word boundary |
| Formatters.UppercaseAbbreviationsWord | src/TransferService/util/formatters.ts:37 | a whole word that is an abbreviation is upper-cased and the scan continues after it |
| Formatters.FormatDescriptionText | src/TransferService/util/formatters.ts:34-40 | the length is kept and the first character is upper-cased; an empty text is outside the domain because `str[0]` is undefined there |
| Formatters.FormatDescriptionTextOnlyUppercases | src/TransferService/util/formatters.ts:34-40 | every character is kept or is the upper-case form of a lower-case letter |
| Formatters.FormatDescriptionTextKeepsLetters | src/TransferService/util/formatters.ts:34-40 | ignoring case, the text is unchanged |
| Formatters.FormatDescriptionTextMixedCase | src/TransferService/util/formatters.ts:35-39 | a mixed-case text changes only in its first character |
| Formatters.FormatDescriptionTextAllUpper | src/TransferService/util/formatters.ts:35-39 | an all-upper-case text is unchanged |
| Formatters.FormatDescriptionTextCapitalizesSentences | src/TransferService/util/formatters.ts:36 | in a lower-case text, the character after each ". " is upper-cased |
| Formatters.FormatDescriptionTextAbbreviation | src/TransferService/util/formatters.ts:37 | in a lower-case text, a whole-word abbreviation not right after ". " comes out fully upper-cased |
| StellarAddress.IsPublicKey | src/lib/stellar-address.ts:6 | a key is 56 characters long and starts with 'G' |
| StellarAddress.PublicKeyShape | src/lib/stellar-address.ts:6 | a key is exactly a 'G' followed by 55 characters from A-Z and 0-9, with no base32 alphabet or checksum test |
| StellarAddress.IsStellarAddress | src/lib/stellar-address.ts:7-8 | true exactly for the strings that split into a non-empty name, one '*', a non-empty label without '.', a '.', and a non-empty rest, none holding a forbidden character |
| StellarAddress.AddressDecomposition | src/lib/stellar-address.ts:8 | an address has a '*' after its first character and a '.' at least two characters later and before the last character; the parts between avoid the forbidden characters |
| StellarAddress.StellarAddressShape | src/lib/stellar-address.ts:7-8 | an address has exactly one '*', not at the start, and no space, tab, CR, LF or '>' anywhere |
| StellarAddress.PublicKeyIsNoAddress | src/lib/stellar-address.ts:6-8 | no string is both a public key and a federation address |
| StellarAddress.ClassifyResolveError | src/lib/stellar-address.ts:25-32 | a request without a response gives the "Request ... failed" message; otherwise a not-found error gives the "not found" message; anything else is rethrown unchanged |
| StellarAddress.FederationLookup.constructor | src/lib/stellar-address.ts:12-13 | both caches start empty |
| StellarAddress.FederationLookup.Lookup | src/lib/stellar-address.ts:10-37 | a cache hit returns the cached record and makes no resolve call. A miss makes one. Success stores address to record and account id to address. Failure leaves both caches alone and raises the classified error. The reverse cache always points at cached records with that account id |
| StellarAddress.SecondLookupIsCached | src/lib/stellar-address.ts:16-20 | a second lookup is served from the cache, with one resolve call in all, and the reverse cache names the address |
| StellarAddress.FailureIsRetried | src/lib/stellar-address.ts:25-35 | a failed lookup caches nothing, so the next lookup resolves again |
| TransactionSummary.IsStellarWebAuth | src/components/TransactionReview/TransactionSummary.tsx:28-37 | true exactly when the sequence number is "0", there is an operation, and the first one is a manageData whose name ends with " auth" in any letter case |
| TransactionSummary.EndsWithAuth | src/components/TransactionReview/TransactionSummary.tsx:35 | a match has a space five characters before the end |
| TransactionSummary.EndsWithAuthLetters | src/components/TransactionReview/TransactionSummary.tsx:35 | a name matches exactly when its last five characters are a space then a, u, t, h, each in either case |
| TransactionSummary.EndsWithAuthIgnoresCase | src/components/TransactionReview/TransactionSummary.tsx:35 | upper- or lower-casing the name does not change the match |
| TransactionSummary.NoOperationsIsNoWebAuth | src/components/TransactionReview/TransactionSummary.tsx:33 | a transaction without operations is never a challenge |
| TransactionSummary.EffectiveSource | src/components/TransactionReview/TransactionSummary.tsx:44 | the operation's own source when it is non-empty, else the transaction's |
| TransactionSummary.MakeOperationSourceExplicit | src/components/TransactionReview/TransactionSummary.tsx:39-50 | the body and the effective source are kept. The operation is returned unchanged exactly in the default case: the effective source is the transaction's and is the local account, or there is no local account. Otherwise its source becomes the effective source |
| TransactionSummary.MakeOperationSourceExplicitIdempotent | src/components/TransactionReview/TransactionSummary.tsx:39-50 | applying it twice is applying it once |
| TransactionSummary.ForeignSourceIsShown | src/components/TransactionReview/TransactionSummary.tsx:47-49 | an operation with its own source other than the transaction's is returned as it is, so its source stays shown |
| TransactionSummary.DisplayedFee | src/components/TransactionReview/TransactionSummary.tsx:71-73 | the fee shown, in lumens, times 10^7 is the fee field times the number of operations, and is never negative |
| TransactionSummary.DisplayedFeeAdds | src/components/TransactionReview/TransactionSummary.tsx:71-73 | each added operation adds the whole fee field once more |
| TransactionReviewDialog.Title | src/components/TransactionReview/TransactionReviewDialog.tsx:34-46 | no transaction gives "Transaction". Otherwise the checks run in order: all payments ("Payment" or "Confirm Payment"), then all offer deletions ("Transaction" or "Delete Offer"), then web authentication, then the default ("Transaction" or "Confirm Transaction") |
| TransactionReviewDialog.IsPaymentOperation | src/components/TransactionReview/TransactionReviewDialog.tsx:18-20 | true exactly for account creations and payments, which are never offer deletions |
| TransactionReviewDialog.IsOfferDeletionOperation | src/components/TransactionReview/TransactionReviewDialog.tsx:22-27 | true exactly for a manageBuyOffer with buy amount 0 and a manageSellOffer with amount 0 |
| TransactionReviewDialog.EmptyTransactionIsPayment | src/components/TransactionReview/TransactionReviewDialog.tsx:37-38 | no operations take the payment branch |
| TransactionReviewDialog.PaymentsBeatWebAuth | src/components/TransactionReview/TransactionReviewDialog.tsx:37-42 | for all-payment transactions the web-auth flag does not matter |
| TransactionReviewDialog.OfferDeletionsBeatWebAuth | src/components/TransactionReview/TransactionReviewDialog.tsx:39-42 | a non-empty list of offer deletions gives "Transaction" or "Delete Offer" regardless of web auth |
| TransactionReviewDialog.DisabledTitles | src/components/TransactionReview/TransactionReviewDialog.tsx:34-46 | a disabled dialog shows "Transaction", "Payment" or "Web Authentication" |
| TransactionReviewDialog.ConfirmTitlesNeedEnabled | src/components/TransactionReview/TransactionReviewDialog.tsx:38-44 | the "Confirm ..." and "Delete Offer" titles appear only when not disabled |
| TransactionReviewDialog.WebAuthTitleCondition | src/components/TransactionReview/TransactionReviewDialog.tsx:41-42 | "Web Authentication" appears exactly for a transaction that is neither all payments nor all offer deletions and is a challenge |
| ShortPublicKey.GetDigitCounts | src/components/ShortPublicKey.tsx:6-18 | "short" keeps 6 and 6 characters, anything else 4 and 4 |
| ShortPublicKey.ShortPublicKey | src/components/ShortPublicKey.tsx:25-36 | a key not 56 characters long comes back unchanged; otherwise the result is its first `leading` characters, "…", and its last `trailing` characters |
| ShortPublicKey.ShortPublicKeyLength | src/components/ShortPublicKey.tsx:33 | the abbreviation is 13 characters for "short" and 9 otherwise |
| ShortPublicKey.ShortPublicKeyOneEllipsis | src/components/ShortPublicKey.tsx:33 | a key without "…" abbreviates with exactly one "…", at the position after the leading characters |
| ShortPublicKey.ShortPublicKeyDependsOnEnds | src/components/ShortPublicKey.tsx:33 | two keys with the same kept ends abbreviate the same |
| TradingForm.IsValidAmount | src/components/Trading/TradingForm.tsx:29 | true exactly for one or more digits, or digits, one '.' or ',' and digits |
| TradingForm.AmountDecomposition | src/components/Trading/TradingForm.tsx:29 | a valid amount is digits, or digits, one separator and digits, at the returned position |
| TradingForm.ValidAmountShape | src/components/Trading/TradingForm.tsx:29 | a valid amount is non-empty, starts and ends with a digit (so no sign and no leading or trailing separator), and holds only digits and at most one separator |
| TradingForm.EmptyAmountIsInvalid | src/components/Trading/TradingForm.tsx:29 | the empty string is rejected |
| TradingForm.BothSeparatorsAreValid | src/components/Trading/TradingForm.tsx:29 | "1.5" and "1,5" are accepted; "1.", ".5", "1.2.3" and "-1" are rejected |
| TradingForm.ParseAmount | src/components/Trading/TradingForm.tsx:67 | big.js throws on a valid amount exactly when its separator is ','; otherwise the value is non-negative |
| TradingForm.ParseWholeAmount | src/components/Trading/TradingForm.tsx:67 | the decimal text of a number is valid and parses to that number |
| TradingForm.ParseDigitsAmount | src/components/Trading/TradingForm.tsx:67 | a non-empty run of digits is valid and parses to the number it denotes |
| TradingForm.LeadingZerosAreIgnored | src/components/Trading/TradingForm.tsx:67 | "007" is valid and parses to 7 |
| TradingForm.ParseDecimalAmount | src/components/Trading/TradingForm.tsx:67 | "w.f" is valid and parses to the digits wf read as a number, divided by ten to the number of digits of f |
| TradingForm.UpdatePrice | src/components/Trading/TradingForm.tsx:78-83 | the new text is stored; valid text clears the error, invalid text keeps the previous one |
| TradingForm.ValidatePrice | src/components/Trading/TradingForm.tsx:85-90 | the text is kept; the error is set, to "Invalid price", exactly when the text is non-empty and invalid |
| TradingForm.ValidatePriceIdempotent | src/components/Trading/TradingForm.tsx:85-90 | validating twice is validating once |
| TradingForm.UpdateThenValidate | src/components/Trading/TradingForm.tsx:78-90 | after typing and validating, the state depends only on the typed text, and the error exists exactly for non-empty invalid text |
| TradingForm.UpdateKeepsCleanState | src/components/Trading/TradingForm.tsx:80 | without a previous error, typing never raises one |
| TradingForm.Price | src/components/Trading/TradingForm.tsx:64-69 | 0 unless the typed price is non-empty and valid. Then it is the parsed price in the primary mode and the reciprocal (price times result is 1) in the secondary mode. It throws exactly when the valid text has a ',' or, in the secondary mode, reads as 0. It is never negative |
| TradingForm.PrimaryAmount | src/components/Trading/TradingForm.tsx:71-72 | the parsed amount when it is valid, else 0, and never negative |
| TradingForm.EffectivePrice | src/components/Trading/TradingForm.tsx:98-99 | a positive typed price wins; else a positive best-match price; else 0 |
| TradingForm.EffectivePricePositive | src/components/Trading/TradingForm.tsx:98-99 | the effective price is positive exactly when one of its two sources is |
| TradingForm.InversePrice | src/components/Trading/TradingForm.tsx:103 | 0 for price 0; otherwise the reciprocal (result times price is 1) |
| TradingForm.InversePriceInvolution | src/components/Trading/TradingForm.tsx:103 | inverting twice gives the price back |
| TradingForm.SellingAmount | src/components/Trading/TradingForm.tsx:100-106 | selling sells the amount; buying sells the amount times the price |
| TradingForm.SellingBalance | src/components/Trading/TradingForm.tsx:107-109 | the balance of the sold asset, 0 when there is none |
| TradingForm.MaxPrimaryAmountAsWritten | src/components/Trading/TradingForm.tsx:111-118 | the maximum as written: when buying, the secondary balance times the price |
| TradingForm.MaxPrimaryAmountAsWrittenOverstates | src/components/Trading/TradingForm.tsx:111-121 | buying at price 2 with balance 10, the maximum shown is 20, and buying 20 sells more than the balance, which disables the form |
| TradingForm.MaxPrimaryAmount | src/components/Trading/TradingForm.tsx:111-118 | when buying, the maximum times the price is the secondary balance |
| TradingForm.MaxPrimaryAmountCoversSelling | src/components/Trading/TradingForm.tsx:106-121 | at a positive price, a non-negative amount is at most the maximum exactly when the balance covers what it sells |
| TradingForm.FormDisabled | src/components/Trading/TradingForm.tsx:64-121 | the derived values throw exactly when the amount or the price cannot be parsed; otherwise the form is disabled exactly when no asset is selected, the amount is not positive, more is sold than the balance of the sold asset, or the effective price is not positive |
| TradingForm.EnabledFormIsCovered | src/components/Trading/TradingForm.tsx:120-121 | an enabled form has an asset selected, a positive amount, and a sold-asset balance that exists and is positive |
| TradingForm.NoAmountDisables | src/components/Trading/TradingForm.tsx:120-121 | an empty or invalid amount disables the form |

## Findings

| source | as written | input that shows it | evidently intended | confidence | as-written member | corrected member |
|---|---|---|---|---|---|---|
| src/components/Trading/TradingForm.tsx:111-118 | when buying, `maxPrimaryAmount` is the secondary balance times the effective price | buying at price 2 with a secondary balance of 10: the maximum shown is 20, but 20 costs 40, and line 121 disables the form | the secondary balance divided by the price, the largest amount the balance pays for | medium, not executed | TradingForm.MaxPrimaryAmountAsWritten (shown by TradingForm.MaxPrimaryAmountAsWrittenOverstates) | TradingForm.MaxPrimaryAmount (proved by TradingForm.MaxPrimaryAmountCoversSelling) |
| src/components/TransactionReview/TransactionSummary.tsx:71-73 | the shown fee is the `fee` field times the number of operations, although the field already is the fee of the whole transaction (base fee times the number of operations) | two operations at a base fee of 100 stroops: the field holds 200, the transaction costs 0.00002 lumens, and 0.00004 is shown | the `fee` field divided by 10^7 | medium, not executed | TransactionSummary.DisplayedFee (shown by TransactionSummary.DisplayedFeeMultipliesTotal and TransactionSummary.TwoOperationFeeIsShownTwice) | TransactionSummary.TotalFee (proved by TransactionSummary.TotalFeeIsBaseFeesSummed) |

## Left out

- I/O and collaborators are parameters or uninterpreted inputs, not models: `fetch`, `EventSource`, `joinURL`, `JSON.parse`, the stellar.toml fetch, `resolveStellarAddress`, `manageStreamConnection`, `whenBackOnline`, `Date.now`, `navigator.onLine`, `formatBalance`, `isNotFoundError` and `isStellarWebAuthTransaction`. A decoded signature request is represented by the JSON text it came from.
- MultisigWorker.FetchSignatureRequests: the URL is a path handed to the fetch parameter together with the service URL, because `joinURL` is not part of this model.
- MultisigWorker.Parse: `JSON.parse` never fails in the model. In the source an item that does not decode throws in the listener before the emit loop, so nothing from that message is emitted; the model emits every item.
- MultisigWorker.FetchSignatureRequests: a rejected `fetch` and a failing `response.text()` or `response.json()` are not modelled; the response is always read.
- The event log of a subscription (`MultisigWorker.Subscription.OnMessage`) records every call to `observer.next`, whether or not the subscriber has unsubscribed. The observable library drops calls after unsubscription, and that library is not part of this model.
- MultisigWorker.Subscription.Init: the `manageStreamConnection` factory is taken to run once, at once, when `init` is called.
- MultisigWorker.Subscription.OnMessage: a connection that reported `CLOSED` still delivers messages in the model, because the ready state of an `EventSource` is not kept in the state; only connections closed by `eventSource.close()` stop.
- ShortPublicKey.ShortPublicKey and StellarAddress.IsPublicKey: JavaScript `length` counts UTF-16 code units; the model counts characters.
- Formatters.FormatDescriptionText: for lower-case or upper-case text, that nothing changes except sentence starts, whole-word abbreviations and the first letter is not proved. The lemmas state that every change upper-cases a lower-case letter, and that those three kinds of place are upper-cased.
- `console.error`: only the times of logged errors are kept (`errorLog`).
- Real asynchrony and timers: each event is an explicit method call in sequence. Besides the gap at the `await` of the resolver, the `await workers` before the cache read in `lookupFederationRecord` is not a separate step, so the lookup is atomic.
- The LRU eviction of the federation caches: the caches are plain maps, because eviction depends on capacities the lookup does not set.
- The completion of an observable and the `unsubscribe` function returned by `manageStreamConnection`: only the fact that it was called is recorded.
- Non-ASCII letters: case mapping, `\b` and the `/i` flag are ASCII only.
- big.js and floating point: amounts and prices are exact reals, so division does not round to 20 digits. `formatDuration` takes whole seconds, with `Math.round` as round-half-up.
- Formatters.UppercaseAbbreviations: its contract keeps only the length; what it does to words is stated by the lemmas about it.
- Rendering, `defaultPrice` and `bigNumberToInputValue` (display formatting), `findMatchingBalance` (the balances come in as optional values), `useConversionOffers` (its best price is an input), `calculateSpread`, and the operation amounts of offer deletions as strings (they are reals here).
- Submission of the trade, of the transaction review and of signature requests: not part of this model.
