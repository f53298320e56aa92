# Namecoin wallet model: name registration, sending and wallet status

This project models the core of Namecoin's Qt `WalletModel` (`src/qt/walletmodel.cpp`). That is the layer between the wallet (`CWallet`) and the user interface. The model covers:

- **Name registration by commit and reveal.** `nameNew` sends a `name_new` that commits to `Hash160(rand ‖ name)`. It then records the name in three process-wide maps:
  - name → `name_new` id;
  - commitment → name;
  - name → pending reveal.

  `nameFirstUpdatePrepare` builds the `name_firstupdate` reveal through `nameFirstUpdateCreateTx`. That function checks, in order:
  1. no pending operations on the name;
  2. the name is not active;
  3. the previous transaction is in the wallet;
  4. its name outputs are `name_new`;
  5. one such output exists;
  6. the commitment matches.

  It then adds a network fee rounded up to a whole CENT, and builds and checks the transaction. `sendPendingNameFirstUpdates` runs on every new block outside the initial download. It drops entries whose `name_new` is unknown, keeps those with fewer than 12 confirmations, and hands every other reveal to the wallet.
- **Name updates and availability.** `nameUpdate` has its own check chain and an optional transfer address. `nameAvailable` reads the newest name-index entry and compares it with the expiration depth.
- **Sending coins.** `sendCoins` first checks the recipients. The first bad address or non-positive amount wins. After that come duplicate addresses, then the balance, then the balance with the fee. Once the payment is committed, it sets an address-book label only for a new address or a changed label.
- **Cached wallet state.** The balance, transaction count and encryption status are cached and emit change events. `requestUnlock` and its `UnlockContext` relock the wallet when they should, and `CopyFrom` hands that duty on.

Collaborators whose code lies outside this file are values the model is parametric in:

- hashing and `CBigNum` serialisation;
- the chain state and name index;
- `CreateTransactionWithInputTx`, `CheckTransaction`, `SendMoneyWithInputTx` and `AddressToHash160`.

So every property holds for any behaviour of these collaborators. One-shot answers are method parameters: the result of `SendMoney`, the fee dialog, the commit, and the user's answer to the unlock prompt.

Module layout:

- `Common`: option, result and byte types.
- `NameScript`: name scripts as token sequences, and a decoder with round trips.
- `Collaborators`: chain state, services and the `Wallet` class.
- `NameAvailability`: `nameAvailable`.
- `NameTx`: `nameFirstUpdateCreateTx` and `nameUpdate`.
- `SendCoins`: recipient checks and the address-book rule.
- `WalletModel`: the name store, `WalletModel` and `UnlockContext` classes, and the pending-reveal logic.

## Model

| member | source | states |
|---|---|---|
| NameScript.DecodeNewScript | src/qt/walletmodel.cpp:471-472 | the name_new script decodes to a name_new carrying exactly the commitment |
| NameScript.DecodeFirstUpdateScript | src/qt/walletmodel.cpp:214-215 | the name_firstupdate script decodes to name, random bytes and value |
| NameScript.DecodeUpdateScript | src/qt/walletmodel.cpp:566-567 | the name_update script decodes to name and value |
| NameScript.PlainScriptsAreNotNameOps | src/qt/walletmodel.cpp:220-230 | payment scripts and the fee script are not name operations |
| NameTx.TruncDiv | src/qt/walletmodel.cpp:244 | C++ division truncates toward zero: the quotient times the divisor lies within one divisor of the dividend, on the side of zero, and has the dividend's sign |
| NameTx.RoundUpToCentBounds | src/qt/walletmodel.cpp:241-244 | a non-negative network fee becomes the least multiple of CENT not below it; zero stays zero |
| NameTx.FindCommittedHash | src/qt/walletmodel.cpp:217-233 | the output scan yields "not a name_new" if any name output is another operation, "not a name tx" if none, else the last name_new's commitment |
| NameTx.LastCommittedHashSingle | src/qt/walletmodel.cpp:220-230 | a transaction whose only name output is a name_new yields that output's commitment |
| NameTx.FirstUpdateSends | src/qt/walletmodel.cpp:248-261 | the first output is the reveal script with MIN_AMOUNT; a fee output exists exactly when the rounded fee is non-zero |
| NameTx.FirstUpdateFeeOutput | src/qt/walletmodel.cpp:241-261 | for a non-negative network fee the fee output carries at least that fee and less than one CENT more |
| NameTx.FirstUpdateTx | src/qt/walletmodel.cpp:182-287 | each of the six check errors holds exactly when every earlier check passed and its own failed, in the source's order; once all six pass, success holds exactly when the build succeeds and CheckTransaction accepts, yielding the built transaction, the fee error exactly when the build fails and MIN_AMOUNT plus the required fee exceeds the balance, creation failure when it fails otherwise, and the CheckTransaction error exactly when the built transaction is refused |
| NameTx.NameFirstUpdateCreateTx | src/qt/walletmodel.cpp:182-287 | the imperative check chain answers what FirstUpdateTx specifies |
| NameTx.SameCommitmentIsAccepted | src/qt/walletmodel.cpp:235-239 | a previous transaction committing to this random value and name never fails on the commitment or the name outputs |
| NameTx.DifferentRandomMeansOtherPreimage | src/qt/walletmodel.cpp:235-239 | a "different random value" error means the stored commitment differs from the hash of this random value and name |
| NameTx.NameUpdate | src/qt/walletmodel.cpp:538-597 | the errors in order (invalid address, pending operations, no coin, coin not in wallet); once those checks pass, success with the update script spending the name's active transaction exactly when SendMoneyWithInputTx answers no error, and otherwise a send failure carrying its message |
| NameAvailability.NameAvailable | src/qt/walletmodel.cpp:420-449 | a name is available exactly when there is no live registration: a readable, non-null newest entry whose expiration height is still ahead |
| NameAvailability.ExpirationBoundary | src/qt/walletmodel.cpp:445 | with a readable newest entry at height h, available exactly when the chain is at least the expiration depth past h |
| SendCoins.FirstInvalidAfterGoodPrefix | src/qt/walletmodel.cpp:332-346 | recipients that pass leave the first failure to the rest of the list |
| SendCoins.FirstInvalidNoneIff | src/qt/walletmodel.cpp:332-346 | no failure exactly when every address is valid and every amount positive |
| SendCoins.AddressSetSize | src/qt/walletmodel.cpp:348-350 | more recipients than distinct addresses exactly when some address repeats |
| SendCoins.PrecheckProceedIff | src/qt/walletmodel.cpp:320-360 | sending proceeds exactly when the list is non-empty, well formed, free of duplicates and within the balance including the fee, with the amounts' sum as total |
| SendCoins.CheckRecipients | src/qt/walletmodel.cpp:320-360 | the checking loop answers what PrecheckRecipients specifies |
| SendCoins.BookAfterContents | src/qt/walletmodel.cpp:397-415 | after storing, each recipient's address carries its label and other entries are untouched |
| SendCoins.LabelWritesExactlyChanged | src/qt/walletmodel.cpp:397-415 | a label is written exactly for a new address or a changed label |
| Collaborators.Wallet.Lock | src/qt/walletmodel.cpp:649-661 | locking succeeds exactly for an encrypted wallet, which is then locked |
| WalletModel.PendingFateOf | src/qt/walletmodel.cpp:106-176 | a pending entry is dropped when its name_new id or transaction is missing, kept below 12 confirmations, sent otherwise |
| WalletModel.MissingWalletTxReadsEnd | src/qt/walletmodel.cpp:126-141 | as written, a missing name_new transaction leads to a read through the end iterator and can advance twice |
| WalletModel.PendingStepAgreesWithAsWritten | src/qt/walletmodel.cpp:106-176 | the intended step visits each entry once, never reads the end iterator, and matches the code wherever the name_new transaction exists |
| WalletModel.MissingWalletTxSkipsNext | src/qt/walletmodel.cpp:126-141 | as written, after an entry whose name_new transaction is missing, the next entry's body never runs when the read through the end iterator yields a depth below 12 |
| WalletModel.IntendedVisitsEveryEntry | src/qt/walletmodel.cpp:110-175 | the intended loop runs its body exactly once at every entry, in key order |
| WalletModel.AsWrittenVisitsEveryEntryOtherwise | src/qt/walletmodel.cpp:110-175 | when no entry has a known id with a missing transaction, the loop as written also visits every entry once, in order |
| WalletModel.NameNewTxCommits | src/qt/walletmodel.cpp:461-476 | the name_new transaction, with any further outputs that are not name scripts such as change, scans to exactly the commitment to the random value and the name |
| WalletModel.EncryptionStatusOf | src/qt/walletmodel.cpp:619-633 | unencrypted, locked and unlocked exactly by the crypted and locked flags |
| WalletModel.WalletModel.constructor | src/qt/walletmodel.cpp:20-38 | all caches start at zero, status unencrypted, no events |
| WalletModel.WalletModel.CheckBalanceChanged | src/qt/walletmodel.cpp:91-104 | the caches equal the wallet's balances afterwards; one event exactly when one of them changed |
| WalletModel.WalletModel.UpdateTransaction | src/qt/walletmodel.cpp:289-306 | balances as above, then the transaction count cached with an event only on change |
| WalletModel.WalletModel.UpdateStatus | src/qt/walletmodel.cpp:70-76 | an event exactly when the status differs from the cache; the cache is never updated |
| WalletModel.WalletModel.SendPendingNameFirstUpdates | src/qt/walletmodel.cpp:106-176 | only kept entries remain in the store and the database; exactly the reveals due to be sent are handed over, all at depth at least 12 |
| WalletModel.WalletModel.PollBalanceChanged | src/qt/walletmodel.cpp:78-89 | nothing happens unless the best height moved; then balances refresh and, outside the initial download, the store and the persisted records keep exactly the retained entries and the due reveals are handed over |
| WalletModel.WalletModel.NameFirstUpdatePrepare | src/qt/walletmodel.cpp:502-536 | errors for a missing id or random value, or the build error, with no change; success replaces data and reveal, keeps the random value and writes one database record |
| WalletModel.WalletModel.NameNew | src/qt/walletmodel.cpp:451-500 | on send failure nothing changes; on success the maps and the wallet record the commitment, the reveal is prepared, and when the name is free that step never fails on the commitment |
| WalletModel.WalletModel.SendCoins | src/qt/walletmodel.cpp:320-418 | check failures, build failure with or without the fee message, abort, commit failure, and on success the labels of exactly the new or changed recipients |
| WalletModel.WalletModel.StoreRecipientLabels | src/qt/walletmodel.cpp:397-415 | the address-book loop yields the book and the label writes that BookAfter and LabelWrites specify |
| WalletModel.WalletModel.RequestUnlock | src/qt/walletmodel.cpp:721-733 | a locked wallet raises the unlock request; the context is valid when the wallet is no longer locked and relocks when it was locked |
| WalletModel.UnlockContext.constructor | src/qt/walletmodel.cpp:735-740 | stores the model, validity and relock duty |
| WalletModel.UnlockContext.Release | src/qt/walletmodel.cpp:742-748 | relocks exactly when valid and responsible for relocking |
| WalletModel.UnlockContext.CopyFrom | src/qt/walletmodel.cpp:750-755 | takes over the other context's state and relock duty, which the other gives up; a self-copy keeps no duty |

## Left out

- Qt plumbing is not modelled: table models, signals as connections, the poll timer, core-signal subscription, `QString` conversion and `tr()` texts. Events are a sequence, and error texts are error constructors.
- Wallet encryption, passphrase changes and backup (`setWalletEncrypted`, `changePassphrase`, `backupWallet`) are not modelled. They only forward to `CWallet`. `setWalletLocked(true)` appears as `Wallet.Lock`.
- Unlocking with a passphrase (`setWalletLocked(false, …)`) is not modelled; `RequestUnlock` takes the user's answer to the prompt as a parameter.
- Key-pool handling (`GetKeyFromKeyPool`, `CReserveKey`, `KeepKey`) is not modelled. Keys are parameters.
- Locks (`cs_main`, `cs_wallet`) and concurrency are not modelled.
- `std::map` iteration order is not modelled. Each pending entry's fate depends on that entry alone.
- Amounts are unbounded integers. `int64` overflow of the recipients' total is not modelled.
- `DecodeNameScript`, `IndexOfNameOutput`, `GetTxOfName`, `ReadName`, `GetValueOfTxPos` and the other chain and wallet services are not part of this model. Scripts are token sequences with their own decoder, and the services are fields of `Env` and `ChainState`.
- NameTx.RoundUpToCentBounds: only non-negative network fees are characterised. A negative fee is rounded toward zero by C++ division, and `RoundUpToCent` computes that too.
- The address book is keyed by address text, not by the decoded destination.
- The effects on the wallet of `CommitTransaction` (for the automatic reveals and in `sendCoins`) and of `SendMoneyWithInputTx` (in `nameUpdate`) are not modelled. `SendPendingNameFirstUpdates` returns the reveals handed over and erases each entry whatever the commit answers, as the source does. `SendCoins` takes the commit's answer as a parameter. `NameUpdate` returns what was asked to be sent.
- WalletModel.WalletModel.NameNew: the effect of `SendMoney` is modelled as a wallet transaction with the name_new output alone at depth 0. The real transaction also carries a change output. NameNewTxCommits shows that the commitment the reveal checks is unchanged by further outputs that are not name scripts.
- `uint160(vch)` is defined in a header that is not part of this model. `Uint160` takes it as the bytes themselves when there are 20 of them, and zero otherwise.
- The as-written loop of `sendPendingNameFirstUpdates` (`VisitedAsWritten`) ends when a step passes the last entry. In C++ that step increments `end()`, which is undefined behaviour.
- `CENT`, `MIN_AMOUNT` and `MIN_FIRSTUPDATE_DEPTH` are defined in headers that are not part of this model. They are taken as 1000000, CENT and 12.

## Findings

| source | as written | input that shows it | evidently intended | confidence | as-written member | corrected member |
|---|---|---|---|---|---|---|
| src/qt/walletmodel.cpp:126-141 | when the name_new transaction is missing from the wallet, the entry is erased and the iterator advanced, but control falls through to `it2->second.GetDepthInMainChain()` on the end iterator, and may advance `mi` a second time | a pending entry whose name is in `mapMyNames` but whose transaction id is not in `mapWallet`, followed by another entry, when the read through the end iterator yields a depth below 12: the following entry is skipped | erase the entry and continue with the next one | not executed | WalletModel.MissingWalletTxSkipsNext | WalletModel.IntendedVisitsEveryEntry |
