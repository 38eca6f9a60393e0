# Blockchain wallet for Android: ShapeShift trade metadata, app-rating prompt, balance account list

A Dafny model of three small stateful components of the Android wallet.

- **ShapeShift trade metadata** (`ShapeShiftDataManager`). The manager keeps a nullable cached trade document, so it is either uninitialised or ready. Initialisation is fetch-or-create: it loads the document stored at the metadata node derived from the wallet's BIP-32 master key, and when nothing is stored there it creates an empty document and saves it. Reading the list or appending to it while uninitialised throws an illegal-state error. An append is optimistic: the trade goes into the in-memory list, the document is saved, and if the save fails the first trade equal to it is removed again. Two API mappings are also modelled: the quote responses (firm and approximate) become `Either` (the error when there is one, the quote otherwise), and the two coin pairings map to their pair codes.
- **App-rating prompt** (`AppRate`). The prompt's state is a preference store with four keys plus two thresholds. `init` decides whether to show the prompt. The dialog's buttons and its cancellation rewrite the store, and `reset` clears it.
- **Displayable accounts** (`BalancePresenter`). The list drops archived accounts and archived imported addresses. It puts an "All Accounts" entry first when there is more than one non-archived account or at least one non-archived imported address, then the non-archived accounts in wallet order, then an "Imported Addresses" entry when at least one non-archived imported address exists. The chosen account is picked from that list by index.

Files:
- `java_types.dfy` (module `JavaTypes`): nullable values and Java's 64-bit `long`. `Wrap` is two's-complement truncation to 64 bits.
- `shapeshift.dfy` (module `ShapeShift`) has three classes. `MetadataService` is the remote store: the trade list last saved at each node. `ShapeShiftTrades` is the document, with `Load` and `Save`. `ShapeShiftDataManager` is the manager. Beside them are the pure mappings and the lemmas about removing the first occurrence of a trade. `FirstUseScenario` is a client method that checks one history against the contracts alone: an empty service, one saved append, then one append that is rolled back.
- `app_rate.dfy` (module `AppRating`) has two classes. `SharedPreferences` is a map that an `Editor` value changes only when committed. `AppRate` holds the thresholds. Beside them are specification functions giving the store after each operation, and `Replay`, which applies a history of events.
- `balance.dfy` (module `Balance`): `DisplayableAccounts` is the rule, `GetAllDisplayableAccounts` builds the list by appending, and `BalancePresenter` holds the list and the chosen account.

Each method that changes state is tied by its `ensures` to the specification functions above. The properties are lemmas about those functions.

One might expect an exact rollback, quote results that are either an error or a quote, and an "initialising" state. The code, which the model follows, behaves as follows:
- Rollback does not always restore the pre-append list. The code removes the first trade equal to the appended one. When an equal trade was already in the list, that earlier copy is removed, so the list can come back reordered: [a, b] plus a rolls back to [b, a] (`RollbackOfDuplicateReorders`). The list comes back exactly iff the trade was new or every element from its first occurrence on equals it (`RollbackExactIff`). The multiset of trades is always restored.
- A `load` that finds nothing clears the cached document before the new one is created. If saving the new document then fails, a manager that was ready is left uninitialised.
- Quote results are not exclusive by construction. A response with both fields set maps to `Left(error)`. A response with neither set maps to `Right` of a null quote.
- There is no "initialising" state, and appends are not serialised.

The `incrementTransactionCount` method edits the store but never commits the edit, so the stored transaction count never rises. With a positive transaction threshold and a stored count that starts at 0 or below (or is absent), the prompt therefore never appears (`PositiveThresholdNeverPrompts`). The model keeps this behaviour as written.

## Model

| member | source | states |
|---|---|---|
| ShapeShift.CoinPairings.PairCode | app/src/main/java/piuk/blockchain/android/data/shapeshift/ShapeShiftDataManager.kt:114-117 | each of the two pairings has a pair code that names it and only it (`PairingOf` inverts it) |
| ShapeShift.GetRate | app/src/main/java/piuk/blockchain/android/data/shapeshift/ShapeShiftDataManager.kt:61-63 | the rate endpoint is asked about a code that identifies exactly the requested pairing |
| ShapeShift.QuoteResult | app/src/main/java/piuk/blockchain/android/data/shapeshift/ShapeShiftDataManager.kt:69-72 | the result is `Left` iff the response carries an error, `Left` holds that error, `Right` holds the wrapper |
| ShapeShift.QuoteResultLossless | app/src/main/java/piuk/blockchain/android/data/shapeshift/ShapeShiftDataManager.kt:69-72 | on a response with exactly one field set, the response can be recovered from the result |
| ShapeShift.QuoteErrorTakesPrecedence | app/src/main/java/piuk/blockchain/android/data/shapeshift/ShapeShiftDataManager.kt:70-71 | when both error and quote are set, the result is the error |
| ShapeShift.GetQuote | app/src/main/java/piuk/blockchain/android/data/shapeshift/ShapeShiftDataManager.kt:65-74 | a firm quote is `Left` iff the endpoint's response has an error, otherwise it is the response's wrapper |
| ShapeShift.GetApproximateQuote | app/src/main/java/piuk/blockchain/android/data/shapeshift/ShapeShiftDataManager.kt:76-84 | the same rule for the approximate-quote endpoint |
| ShapeShift.RemoveFirst | app/src/main/java/piuk/blockchain/android/data/shapeshift/ShapeShiftDataManager.kt:50 | removal shortens the list by one exactly when the trade is present |
| ShapeShift.FirstIndex | app/src/main/java/piuk/blockchain/android/data/shapeshift/ShapeShiftDataManager.kt:50 | the index returned holds the trade and no earlier index does |
| ShapeShift.RemoveFirstAtFirstIndex | app/src/main/java/piuk/blockchain/android/data/shapeshift/ShapeShiftDataManager.kt:50 | removal cuts out the element at the first index holding the trade and keeps the rest in order |
| ShapeShift.RemoveFirstAbsent | app/src/main/java/piuk/blockchain/android/data/shapeshift/ShapeShiftDataManager.kt:50 | removing a trade that is not in the list leaves the list unchanged |
| ShapeShift.RemoveFirstMultiset | app/src/main/java/piuk/blockchain/android/data/shapeshift/ShapeShiftDataManager.kt:50 | removal takes exactly one copy of the trade out of the multiset |
| ShapeShift.RollbackExact | app/src/main/java/piuk/blockchain/android/data/shapeshift/ShapeShiftDataManager.kt:48-50 | appending a trade not already present and then rolling it back restores the list exactly |
| ShapeShift.RollbackRestoresMultiset | app/src/main/java/piuk/blockchain/android/data/shapeshift/ShapeShiftDataManager.kt:48-50 | append then rollback always restores the multiset of trades |
| ShapeShift.RollbackOfDuplicateReorders | app/src/main/java/piuk/blockchain/android/data/shapeshift/ShapeShiftDataManager.kt:48-50 | append then rollback of a trade already present can reorder the list: [a, b] plus a comes back as [b, a] |
| ShapeShift.RollbackExactIff | app/src/main/java/piuk/blockchain/android/data/shapeshift/ShapeShiftDataManager.kt:48-50 | append then rollback restores the list exactly iff the trade was not in it or every element from its first occurrence on equals it |
| ShapeShift.ShapeShiftTrades.constructor | app/src/main/java/piuk/blockchain/android/data/shapeshift/ShapeShiftDataManager.kt:103 | a new document is bound to its node and holds the given trades |
| ShapeShift.ShapeShiftTrades.Load | app/src/main/java/piuk/blockchain/android/data/shapeshift/ShapeShiftDataManager.kt:100 | load fails on a transport error, gives null when nothing is stored at the node, and otherwise gives a fresh document holding the stored list |
| ShapeShift.ShapeShiftTrades.Save | app/src/main/java/piuk/blockchain/android/data/shapeshift/ShapeShiftDataManager.kt:49 | a successful save overwrites the node's stored list with the in-memory list; a failed one changes nothing |
| ShapeShift.ShapeShiftDataManager.constructor | app/src/main/java/piuk/blockchain/android/data/shapeshift/ShapeShiftDataManager.kt:26 | a new manager is uninitialised |
| ShapeShift.ShapeShiftDataManager.FetchOrCreateMetadataNode | app/src/main/java/piuk/blockchain/android/data/shapeshift/ShapeShiftDataManager.kt:99-107 | a failure of the key-derivation collaborator or of the load propagates and changes nothing; a found document is cached and returned with no save; otherwise an empty document is saved once, cached and returned; if that save fails the cache is left null; on success the cache agrees with the service |
| ShapeShift.ShapeShiftDataManager.GetTradesList | app/src/main/java/piuk/blockchain/android/data/shapeshift/ShapeShiftDataManager.kt:40-44 | uninitialised gives the illegal-state error; otherwise the result is exactly the document's current list |
| ShapeShift.ShapeShiftDataManager.UpdateTradesList | app/src/main/java/piuk/blockchain/android/data/shapeshift/ShapeShiftDataManager.kt:46-55 | uninitialised fails and changes nothing; a saved append leaves old list plus the trade in memory and in the service; a failed save removes the first equal trade, restores the multiset (the exact list when the trade was new) and leaves the service alone; memory and service stay in agreement except when a duplicate is rolled back |
| AppRating.Committed | app/src/main/java/info/blockchain/wallet/app_rate/AppRate.java:56 | a commit applies a requested clear first and then every pending put; keys not put keep their values unless cleared |
| AppRating.SharedPreferences.Commit | app/src/main/java/info/blockchain/wallet/app_rate/AppRate.java:86 | the store becomes the committed result of the editor |
| AppRating.AfterInit | app/src/main/java/info/blockchain/wallet/app_rate/AppRate.java:62-87 | init writes nothing when dismissed or crashed; otherwise the reminder start is set to now exactly when it was 0 or absent, and every other key is untouched |
| AppRating.AfterClick | app/src/main/java/info/blockchain/wallet/app_rate/AppRate.java:139-170 | rate and dismiss set `dont_show_again`; remind-later sets the reminder start to now and the count to 0; any other button leaves the store unchanged |
| AppRating.AfterCancel | app/src/main/java/info/blockchain/wallet/app_rate/AppRate.java:121-127 | cancel sets the reminder start to now and the count to 0 and changes nothing else |
| AppRating.AfterReset | app/src/main/java/info/blockchain/wallet/app_rate/AppRate.java:55-57 | reset leaves the store empty |
| AppRating.DismissIsPermanent | app/src/main/java/info/blockchain/wallet/app_rate/AppRate.java:144-156 | after rate or dismiss, and any later history without a reset, init shows nothing and writes nothing |
| AppRating.DontShowAgainSticky | app/src/main/java/info/blockchain/wallet/app_rate/AppRate.java:64-67 | once set, `dont_show_again` survives every event except reset |
| AppRating.TransactionCountNeverRises | app/src/main/java/info/blockchain/wallet/app_rate/AppRate.java:89-95 | over any history the stored count never exceeds the larger of its starting value and 0, because increments are never committed |
| AppRating.PositiveThresholdNeverPrompts | app/src/main/java/info/blockchain/wallet/app_rate/AppRate.java:80 | with a positive transaction threshold and a count that is not positive, init never shows the prompt after any history |
| AppRating.PromptDueWithoutOverflow | app/src/main/java/info/blockchain/wallet/app_rate/AppRate.java:80-84 | for any day threshold, negative ones included, when the long arithmetic does not overflow, the prompt is due iff count >= threshold and now >= start + days * 86 400 000 |
| AppRating.OverflowingPeriodIsDueAtOnce | app/src/main/java/info/blockchain/wallet/app_rate/AppRate.java:81 | an example of the wrap-around: with 106 751 991 168 days, the smallest threshold whose length in milliseconds overflows a `long`, the period wraps to a negative length and the prompt is due at once (other overflowing thresholds can wrap to positive lengths) |
| AppRating.AppRate.constructor | app/src/main/java/info/blockchain/wallet/app_rate/AppRate.java:33-39 | both thresholds start at 0 and the object uses the given store |
| AppRating.AppRate.SetMinTransactionsUntilPrompt | app/src/main/java/info/blockchain/wallet/app_rate/AppRate.java:41-44 | sets only the transaction threshold and returns the same object |
| AppRating.AppRate.SetMinDaysUntilPrompt | app/src/main/java/info/blockchain/wallet/app_rate/AppRate.java:46-49 | sets only the day threshold and returns the same object |
| AppRating.AppRate.Reset | app/src/main/java/info/blockchain/wallet/app_rate/AppRate.java:55-57 | the store is cleared |
| AppRating.AppRate.Init | app/src/main/java/info/blockchain/wallet/app_rate/AppRate.java:62-87 | returns whether the dialog is shown, and leaves the store as `AfterInit` describes |
| AppRating.AppRate.IncrementTransactionCount | app/src/main/java/info/blockchain/wallet/app_rate/AppRate.java:89-95 | returns the same object and modifies nothing: the incremented count is never committed |
| AppRating.AppRate.OnCancel | app/src/main/java/info/blockchain/wallet/app_rate/AppRate.java:121-127 | leaves the store as `AfterCancel` describes |
| AppRating.AppRate.OnClick | app/src/main/java/info/blockchain/wallet/app_rate/AppRate.java:139-170 | leaves the store as `AfterClick` describes; remind-later also sets the day threshold to 7; the transaction threshold is unchanged |
| Balance.Filter | app/src/main/java/piuk/blockchain/android/ui/balance/BalancePresenter.kt:98-102 | an element is kept iff it is in the input and passes the test |
| Balance.FilterAppend | app/src/main/java/piuk/blockchain/android/ui/balance/BalancePresenter.kt:101-102 | filtering keeps the input order: the filter of a concatenation is the concatenation of the filters |
| Balance.ActiveLegacyNonEmpty | app/src/main/java/piuk/blockchain/android/ui/balance/BalancePresenter.kt:134 | the filtered imported addresses are non-empty iff some imported address is not archived |
| Balance.DisplayableAccountsLength | app/src/main/java/piuk/blockchain/android/ui/balance/BalancePresenter.kt:95-150 | the length is the number of non-archived accounts plus one for each consolidated entry shown |
| Balance.AllAccountsFirstIff | app/src/main/java/piuk/blockchain/android/ui/balance/BalancePresenter.kt:115-129 | "All Accounts" is present, and first, iff there is more than one non-archived account or at least one non-archived imported address |
| Balance.AccountsInOrder | app/src/main/java/piuk/blockchain/android/ui/balance/BalancePresenter.kt:101-131 | the non-archived accounts follow, contiguous and in their original order, each as its own entry |
| Balance.ImportedAddressesLastIff | app/src/main/java/piuk/blockchain/android/ui/balance/BalancePresenter.kt:134-148 | "Imported Addresses" is present, and last, iff some imported address is not archived |
| Balance.NoArchivedEntries | app/src/main/java/piuk/blockchain/android/ui/balance/BalancePresenter.kt:98-102 | every account entry is a non-archived account of the wallet |
| Balance.EntryBalanceSource | app/src/main/java/piuk/blockchain/android/ui/balance/BalancePresenter.kt:104-145 | an account entry's balance is its xpub's balance, "All Accounts" has the wallet balance, "Imported Addresses" has the imported-addresses balance, each truncated to a `long` |
| Balance.DisplayableAccountsEmptyIff | app/src/main/java/piuk/blockchain/android/ui/balance/BalancePresenter.kt:95-150 | the list is empty iff every account and every imported address is archived |
| Balance.GetAllDisplayableAccounts | app/src/main/java/piuk/blockchain/android/ui/balance/BalancePresenter.kt:95-151 | appending the optional "All Accounts" entry, the accounts and the optional "Imported Addresses" entry builds exactly the list the rule describes |
| Balance.BalancePresenter.constructor | app/src/main/java/piuk/blockchain/android/ui/balance/BalancePresenter.kt:29-30 | the list starts empty and no account is chosen |
| Balance.BalancePresenter.OnViewReady | app/src/main/java/piuk/blockchain/android/ui/balance/BalancePresenter.kt:36-39 | the list is rebuilt; its first entry is chosen, or on an empty list indexing fails and the choice is unchanged |
| Balance.BalancePresenter.OnAccountChosen | app/src/main/java/piuk/blockchain/android/ui/balance/BalancePresenter.kt:63-64 | the entry at the position is chosen when in range; otherwise indexing fails and the choice is unchanged; the list is never changed |

## Left out

- Rx plumbing: `RxPinning`, the schedulers, `Observable`/`Completable` and subscriptions are not modelled. Each call is one synchronous step. In the source the save inside `updateTradesList` runs only when the returned `Completable` is subscribed; the model saves at once, so an append whose `Completable` is never subscribed is not modelled.
- Concurrency: interleaved appends and initialisations are not modelled. The source does no locking.
- ShapeShift.ShapeShiftDataManager.GetTradesList: returns a snapshot of the list. The source returns the live list, and aliasing with later appends is not modelled.
- Trade identity: trades are compared by value. The `Trade` class lives in a library that is not part of this model, and if it compares by identity, `remove` matches only the same object.
- Network, encryption and key derivation: the ShapeShift API, the metadata service transport and encryption, and BIP-32 derivation are libraries that are not part of this model. The API endpoints are function parameters. The service is a map from node to trade list. Load and save failures are boolean parameters of each call.
- Key derivation: `MetadataUtil.deriveMetadataNode` is a library call that is not part of this model. The manager takes it as a function parameter that returns a node, or null when derivation throws (reported as the key-derivation failure).
- ShapeShift.ShapeShiftDataManager.FetchOrCreateMetadataNode: on the create path the source builds the new document from the master key (`ShapeShiftTrades(masterKey)`), not from the derived node. The model assumes that this library constructor derives the same node as `deriveMetadataNode`. The create-path clauses rest on that assumption: the new document's node, the service entry written at that node, and the agreement of cache and service afterwards. Any exception thrown by that constructor is folded into the save failure.
- `getTradeStatus` is not modelled: it forwards the address to the API and has no logic of its own.
- Pair codes: the `ShapeShiftPairs` constants are not part of this model. They are taken to be "btc_eth" and "eth_btc"; only their being distinct matters.
- Library constants: `LegacyAddress.ARCHIVED_ADDRESS` is taken to be 2, and the `DialogInterface` button constants to be -1, -2 and -3. These constants are not part of this model.
- AppRating.AppRate.Init: the two clock reads of `init` are one `now` parameter.
- Preference reads (`GetBoolean`, `GetLong`): a key holding a value of the wrong type gives the default. Android would throw a `ClassCastException`, but AppRate only ever writes the expected types.
- UI: the dialog, the Play Store intent and its fallback toast, `dialog.dismiss()` and the external click listener are not modelled. All `view` callbacks of `BalancePresenter` are left out too.
- Balance formatting: the display string is an opaque function of the `long` balance, and labels are parameters. The `Double` fiat arithmetic is not modelled.
- `BalancePresenter`'s contacts, facilitated transactions, transaction fetching, ticker refresh, `onRefreshRequested` and `onViewFormatChanged` (an unimplemented `TODO`) are remote-data plumbing and are not modelled.
