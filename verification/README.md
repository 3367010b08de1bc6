# Bus-Increment top-up and ledger, modelled in Dafny

Bus-Increment is an Android app that tops up bus fare cards. An operator
takes a payment, the app reads the card over NFC, checks the card's
organisation code and the device's float, writes the new credit to the card,
lowers the float and appends one row to a local Room ledger. A manual sync
later posts every unsynced ledger row to a remote SQL Server, one row at a
time, and reports what happened.

This project models that core as Dafny code and proves what it promises:

- `tables.dfy` (`Tables`): a Room table with an integer primary key, kept as
  a sequence in key order. It gives the meaning of `REPLACE`, `IGNORE`,
  `@Update` and `@Delete`.
- `ledger.dfy` (`Ledger`): the `Transaction` row with its defaults and the
  `transaction` table of `TransactionDao`. The queries are functions. The
  DAO is a class whose methods change the table in place. The table has an
  AUTOINCREMENT counter `nextId`.
- `credits.dfy` (`Credits`) and `users.dfy` (`Users`): `CreditDao` (the
  predefined amounts and the one-row float table) and `UserDao`.
- `repository.dfy` (`Repository`): `SqlServerRepository`. The server's
  answers (`SqlResponse`) are inputs, one per posted row. The sync summary is
  a datatype with one constructor per message the code can build.
- `home_view_model.dfy` (`HomeViewModel`): `HomeScreenViewModel`, i.e. the
  top-up workflow, the ledger save, the card reads and the copying UI
  events. A card read arrives as its parsed `FullCardData`. A card write
  arrives as the status code it returned.
- `home_screen.dfy` (`HomeScreen`): the amount validator and the
  payment-result decision of `HomeScreen`.
- `device_report.dfy` (`DeviceReport`): `DeviceReportViewModel`.
- `card_data.dfy` (`CardData`), `card_history.dfy` (`CardHistory`),
  `server_config.dfy` (`ServerConfigs`): the card data aggregate, the
  history dialog's ordering and labels, and the server settings.
- `text.dfy` (`Text`), `collections.dfy` (`Collections`),
  `wrappers.dfy` (`Wrappers`): the Kotlin library behaviour the core relies
  on (`isDigit`, `isBlank`, `toIntOrNull`/`toLongOrNull`, `contains`,
  `filter`, `sortedWith`), plus `Option`.

Conventions:

- `regDate` is the millisecond timestamp that the type converter stores.
- Persian user-facing texts are constructors (`Notice`, `SyncSummary`,
  `SaveError`). Each keeps the values its text quotes.
- Coroutines run as sequential steps. The balance save and the ledger save
  after a card write become two updates, one after the other.

## Model

| member | source | states |
|---|---|---|
| Tables.Upsert | app/src/main/java/org/jahangostar/busincreasement/data/db/room/CreditDao.kt:36-37 | REPLACE: the table stays in key order, the key of `row` now finds `row`, every other key finds what it found before, no row appears from elsewhere, and the size grows by one exactly when the key was new |
| Tables.InsertIgnoreKeepsExisting | app/src/main/java/org/jahangostar/busincreasement/data/db/room/UserDao.kt:50-51 | IGNORE: an existing key leaves the table untouched, a new key stores the row, and no stored row changes |
| Tables.UpsertAboveAll | app/src/main/java/org/jahangostar/busincreasement/data/db/room/TransactionDao.kt:73-74 | a row whose key exceeds every stored key is appended at the end |
| Tables.UpsertAllFind | app/src/main/java/org/jahangostar/busincreasement/data/db/room/UserDao.kt:57-58 | after replacing with a list, each key holds the last listed row with that key, or its old row when the list has none |
| Ledger.NewTransaction | app/src/main/java/org/jahangostar/busincreasement/data/model/Transaction.kt:20-33 | a new row has id 0, operationId 0, operatorId 0 unless given, and is unsynced; the other fields are as given |
| Ledger.InsertRow | app/src/main/java/org/jahangostar/busincreasement/data/db/room/TransactionDao.kt:73-74 | `insertTransaction` with IGNORE keeps the table invariant; an explicit key already present changes nothing and returns -1; otherwise the row is stored under the generated or given key, which is returned, and the table grows by one |
| Ledger.GeneratedInsertAppends | app/src/main/java/org/jahangostar/busincreasement/data/model/Transaction.kt:21 | a row with the default id 0 gets the next AUTOINCREMENT key and goes to the end of the table |
| Ledger.InsertKeepsStoredRows | app/src/main/java/org/jahangostar/busincreasement/data/db/room/TransactionDao.kt:73-74 | no insert alters a row already stored |
| Ledger.Unsynced | app/src/main/java/org/jahangostar/busincreasement/data/db/room/TransactionDao.kt:54-55 | `getUnsyncedTransactions` holds exactly the rows with `has_set` false, each from the table |
| Ledger.UnsyncedCount | app/src/main/java/org/jahangostar/busincreasement/data/db/room/TransactionDao.kt:60-61 | the count is the number of unsynced rows, and it is 0 iff every row is synced |
| Ledger.MarkSynced | app/src/main/java/org/jahangostar/busincreasement/data/db/room/TransactionDao.kt:66-67 | `markAsSynced(id)` sets `has_set` on the row with that id only; every other row and field is unchanged |
| Ledger.MarkSyncedIdempotent | app/src/main/java/org/jahangostar/busincreasement/data/db/room/TransactionDao.kt:66-67 | marking twice is marking once |
| Ledger.MarkSyncedUnsyncedCount | app/src/main/java/org/jahangostar/busincreasement/data/db/room/TransactionDao.kt:60-67 | marking lowers the unsynced count by one iff the id names an unsynced row, else leaves it |
| Ledger.MarkAbsentId | app/src/main/java/org/jahangostar/busincreasement/data/db/room/TransactionDao.kt:66-67 | marking id 0, which no stored row has, changes nothing |
| Ledger.MarkAllAt | app/src/main/java/org/jahangostar/busincreasement/repository/SqlServerRepository.kt:86 | after a series of marks, a row is synced iff it was before or its id was marked; nothing else about it changes |
| Ledger.TotalCharge | app/src/main/java/org/jahangostar/busincreasement/data/db/room/TransactionDao.kt:48-49 | the SUM is null iff no row is a charge (operationType 1) with start ≤ regDate ≤ end |
| Ledger.TotalChargeIsPriceSum | app/src/main/java/org/jahangostar/busincreasement/data/db/room/TransactionDao.kt:48-49 | the total, with null read as 0, is the sum of `price` over exactly the charges registered in [start, end] |
| Ledger.TotalChargeAppend | app/src/main/java/org/jahangostar/busincreasement/data/db/room/TransactionDao.kt:48-49 | a new row adds its price to the sum iff it is a charge in range |
| Ledger.TotalChargeIgnoresSync | app/src/main/java/org/jahangostar/busincreasement/data/db/room/TransactionDao.kt:48-49 | marking rows synced never changes the charge total |
| Ledger.ObserveAll | app/src/main/java/org/jahangostar/busincreasement/data/db/room/TransactionDao.kt:23-24 | all rows, a permutation of the table, newest regDate first |
| Ledger.DeviceReport | app/src/main/java/org/jahangostar/busincreasement/data/db/room/TransactionDao.kt:42-43 | exactly the rows with regDate in [start, end], as a permutation of the filtered rows, newest first |
| Ledger.FindByContents | app/src/main/java/org/jahangostar/busincreasement/data/db/room/TransactionDao.kt:29-37 | exactly the rows whose regDate, cardId and operationType all match, drawn from the table |
| Ledger.NewRowRaisesUnsyncedCount | app/src/main/java/org/jahangostar/busincreasement/data/model/Transaction.kt:32 | storing a new, unsynced row raises the unsynced count by one |
| Ledger.TransactionDao.InsertTransaction | app/src/main/java/org/jahangostar/busincreasement/data/db/room/TransactionDao.kt:73-74 | the table, the counter and the returned row id are those of `InsertRow`, and the invariant is kept |
| Ledger.TransactionDao.MarkAsSynced | app/src/main/java/org/jahangostar/busincreasement/data/db/room/TransactionDao.kt:66-67 | the table becomes `MarkSynced` of the old one |
| Ledger.TransactionDao.DeleteTransaction | app/src/main/java/org/jahangostar/busincreasement/data/db/room/TransactionDao.kt:79-80 | the row with the argument's key is removed, the invariant kept |
| Ledger.TransactionDao.ClearAllTransactions | app/src/main/java/org/jahangostar/busincreasement/data/db/room/TransactionDao.kt:85-86 | the table is empty, so the unsynced count is 0; the key counter survives |
| Credits.NewBalance | app/src/main/java/org/jahangostar/busincreasement/data/db/room/CreditDao.kt:56-57 | a balance row built with the default key 1 |
| Credits.ObserveBalance | app/src/main/java/org/jahangostar/busincreasement/data/db/room/CreditDao.kt:46-47 | null iff the table is empty, else the first row in key order |
| Credits.StoredBalanceIsObserved | app/src/main/java/org/jahangostar/busincreasement/data/db/room/CreditDao.kt:46-57 | after `insertBalance(Balance(balance = v))`, `observeBalance` yields v and no other key changes: the table acts as a single row |
| Credits.CreditDao.ObserveAll | app/src/main/java/org/jahangostar/busincreasement/data/db/room/CreditDao.kt:26-27 | the stored amounts, in key order |
| Credits.CreditDao.InsertOrReplaceAll | app/src/main/java/org/jahangostar/busincreasement/data/db/room/CreditDao.kt:36-37 | the amounts are replaced row by row in list order; the balance table is untouched |
| Credits.CreditDao.DeleteAll | app/src/main/java/org/jahangostar/busincreasement/data/db/room/CreditDao.kt:43-44 | the amounts table is empty; the balance table is untouched |
| Credits.CreditDao.Sync | app/src/main/java/org/jahangostar/busincreasement/data/db/room/CreditDao.kt:49-53 | every key holds the last listed amount with that key, and nothing from before survives |
| Credits.CreditDao.InsertBalance | app/src/main/java/org/jahangostar/busincreasement/data/db/room/CreditDao.kt:56-57 | REPLACE into the balance table; the row is found under its key |
| Credits.SyncedCreditsAreListed | app/src/main/java/org/jahangostar/busincreasement/data/db/room/CreditDao.kt:49-53 | after a sync, every stored amount is the last listed entry with its key, and every key's last listed entry is stored |
| Users.ObserveAll | app/src/main/java/org/jahangostar/busincreasement/data/db/room/UserDao.kt:24-25 | all users, a permutation of the table, sorted by name ascending |
| Users.EqualNamesAdjacent | app/src/main/java/org/jahangostar/busincreasement/data/db/room/UserDao.kt:24-25 | users with the same name are listed next to each other |
| Users.ObserveByPassword | app/src/main/java/org/jahangostar/busincreasement/data/db/room/UserDao.kt:34-35 | at most one user, whose `pass` equals the argument, the first such in the table; null iff there is none |
| Users.ObserveById | app/src/main/java/org/jahangostar/busincreasement/data/db/room/UserDao.kt:43-44 | the user with that id, or null iff there is none |
| Users.UserDao.InsertUser | app/src/main/java/org/jahangostar/busincreasement/data/db/room/UserDao.kt:50-51 | IGNORE: an existing id leaves the table unchanged, a new one is found afterwards |
| Users.UserDao.InsertOrReplaceAll | app/src/main/java/org/jahangostar/busincreasement/data/db/room/UserDao.kt:57-58 | REPLACE row by row in list order |
| Users.UserDao.UpdateUser | app/src/main/java/org/jahangostar/busincreasement/data/db/room/UserDao.kt:64-65 | the row with the same id, if any, takes the new contents |
| Users.UserDao.DeleteUser | app/src/main/java/org/jahangostar/busincreasement/data/db/room/UserDao.kt:70-71 | afterwards no user has that id |
| Users.UserDao.DeleteAllUsers | app/src/main/java/org/jahangostar/busincreasement/data/db/room/UserDao.kt:76-77 | the table is empty |
| Users.UserDao.Sync | app/src/main/java/org/jahangostar/busincreasement/data/db/room/UserDao.kt:79-83 | each id holds the last listed user with that id, and nothing from before survives |
| Users.SyncedLogin | app/src/main/java/org/jahangostar/busincreasement/data/db/room/UserDao.kt:34-35 | after a sync, a login by password finds a user iff some key's last listed user carries that password |
| CardData.NewFullCardData | app/src/main/java/org/jahangostar/busincreasement/data/model/FullCardData.kt:3-8 | the three sector results as given, with no raw errors by default |
| CardData.HasAnyData | app/src/main/java/org/jahangostar/busincreasement/data/model/FullCardData.kt:9-11 | false iff all three sector results are errors |
| CardData.Labelled | app/src/main/java/org/jahangostar/busincreasement/data/model/FullCardData.kt:15-17 | an entry starts with "Sector " and ends with the sector's own message |
| CardData.GetAllParsingErrors | app/src/main/java/org/jahangostar/busincreasement/data/model/FullCardData.kt:13-20 | the labelled errors of sectors 0, 5, 6 in that order, then the raw errors in order; its length is the number of failed sectors plus the raw errors |
| CardData.ParsingErrorsEmptyIff | app/src/main/java/org/jahangostar/busincreasement/data/model/FullCardData.kt:13-20 | no errors iff all three sectors decoded and there are no raw errors |
| CardData.AllDecodedNoErrors | app/src/main/java/org/jahangostar/busincreasement/data/model/FullCardData.kt:7 | three successes with the default raw errors give an empty list and `hasAnyData` |
| CardData.Sector5ErrorFirstWhenAlone | app/src/main/java/org/jahangostar/busincreasement/data/model/FullCardData.kt:15-16 | with sector 0 decoded, a sector-5 error is the first entry |
| CardData.LabelledEntriesComeFirst | app/src/main/java/org/jahangostar/busincreasement/data/model/FullCardData.kt:13-20 | the first entries, one per failed sector, all carry a sector label |
| CardHistory.NewerOrSameIsTotalPreorder | app/src/main/java/org/jahangostar/busincreasement/ui/components/TransactionsDialog.kt:52-58 | the (year, month, day, hour, minute) descending comparator is total and transitive |
| CardHistory.SortNewestFirst | app/src/main/java/org/jahangostar/busincreasement/ui/components/TransactionsDialog.kt:52-58 | the shown list is a permutation of the records, non-increasing in (year, month, day, hour, minute) |
| CardHistory.NewestShownFirst | app/src/main/java/org/jahangostar/busincreasement/ui/components/TransactionsDialog.kt:52-58 | the first record shown is at least as new as every record |
| CardHistory.Amount | app/src/main/java/org/jahangostar/busincreasement/ui/components/TransactionsDialog.kt:138 | the shown amount plus `etebar` is `remEtebar` |
| CardHistory.Classify | app/src/main/java/org/jahangostar/busincreasement/ui/components/TransactionsDialog.kt:145-165 | op 1 is a charge, op 2 a decrease, any other op unknown and shown with its code |
| Repository.Post | app/src/main/java/org/jahangostar/busincreasement/repository/SqlServerRepository.kt:84-114 | one answer: `Success` adds one success and marks the id; `Failure` adds one failed entry and marks the id iff the message holds the duplicate-key text; `NotRow` adds one failed entry and marks nothing |
| Repository.FirstDisconnect | app/src/main/java/org/jahangostar/busincreasement/repository/SqlServerRepository.kt:99-105 | the position where the loop stops: every earlier answer is connected, and the answer there is `NoConnection` |
| Repository.Finish | app/src/main/java/org/jahangostar/busincreasement/repository/SqlServerRepository.kt:118-134 | all sent iff no failures; mixed iff failures and some success; none sent iff failures and no success, quoting the count and the first failure |
| Repository.TallyCounts | app/src/main/java/org/jahangostar/busincreasement/repository/SqlServerRepository.kt:82-114 | before a disconnect, successes plus failures equal the rows posted |
| Repository.DisconnectAccounting | app/src/main/java/org/jahangostar/busincreasement/repository/SqlServerRepository.kt:99-105 | on a disconnect, success + failed + remaining = size, remaining ≥ 1, and the remaining rows start with the current one |
| Repository.MarkedIff | app/src/main/java/org/jahangostar/busincreasement/repository/SqlServerRepository.kt:85-97 | an id is marked iff some row posted before the stop has it and got `Success` or a duplicate-key `Failure` |
| Repository.LaterRowsNeverMarked | app/src/main/java/org/jahangostar/busincreasement/repository/SqlServerRepository.kt:99-105 | with distinct ids, no row at or after the disconnect is ever marked |
| Repository.NoFailuresAllSuccess | app/src/main/java/org/jahangostar/busincreasement/repository/SqlServerRepository.kt:82-97 | with no failed entry, every row posted was a `Success` |
| Repository.AllSentIff | app/src/main/java/org/jahangostar/busincreasement/repository/SqlServerRepository.kt:118-121 | the all-success message iff every answer was `Success`, quoting the list's size |
| Repository.FirstFailureIsFirstRow | app/src/main/java/org/jahangostar/busincreasement/repository/SqlServerRepository.kt:90-114 | with no successes, the first failed entry is the first row's |
| Repository.NoneSentQuotesFirstRow | app/src/main/java/org/jahangostar/busincreasement/repository/SqlServerRepository.kt:129-133 | the "none succeeded" message quotes the first row's failure |
| Repository.DisconnectExample | app/src/main/java/org/jahangostar/busincreasement/repository/SqlServerRepository.kt:99-105 | [Success, NoConnection, Success] gives 1 success, 0 failed, 2 remaining, and only the first row marked |
| Repository.DuplicateKeyFailure | app/src/main/java/org/jahangostar/busincreasement/repository/SqlServerRepository.kt:90-97 | a duplicate-key failure is both marked synced and listed as failed, and the summary is "none succeeded" |
| Repository.FreshSaveStaysUnsynced | app/src/main/java/org/jahangostar/busincreasement/repository/SqlServerRepository.kt:138-147 | a row built with id 0 is stored at the end under a new key, and the mark by the argument's id 0 reaches no row, so it stays unsynced whatever the server answers |
| Repository.ExplicitSaveConfirmed | app/src/main/java/org/jahangostar/busincreasement/repository/SqlServerRepository.kt:138-147 | a row with its own new id, confirmed by `Success` or "DONE", is stored and marked synced |
| Repository.SqlServerRepository.PostUnsentTransactions | app/src/main/java/org/jahangostar/busincreasement/repository/SqlServerRepository.kt:74-135 | the loop returns `Summary` of the rows and answers, and the ledger afterwards is the old one with exactly the `Marked` ids marked; an empty list sends nothing |
| Repository.SqlServerRepository.SaveRemoteTransaction | app/src/main/java/org/jahangostar/busincreasement/repository/SqlServerRepository.kt:138-147 | insert first, then mark by the argument's id iff the answer is `Success` or "DONE"; the answer is returned unchanged |
| Repository.SqlServerRepository.SyncDeviceBalance | app/src/main/java/org/jahangostar/busincreasement/repository/SqlServerRepository.kt:149-164 | preBalance + increment is stored iff the server's value is non-null and positive; the value is returned as is |
| Repository.SqlServerRepository.GetRemoteMembers | app/src/main/java/org/jahangostar/busincreasement/repository/SqlServerRepository.kt:57-63 | a non-empty fetched list replaces the users; an empty one changes nothing |
| Repository.SqlServerRepository.GetRemoteCredits | app/src/main/java/org/jahangostar/busincreasement/repository/SqlServerRepository.kt:65-72 | a non-empty fetched list replaces the amounts; an empty one changes nothing |
| HomeViewModel.InitialUiState | app/src/main/java/org/jahangostar/busincreasement/ui/screen/home/HomeScreenUiState.kt:8-16 | every field of the UI state at its default |
| HomeViewModel.ApplyUiEvent | app/src/main/java/org/jahangostar/busincreasement/viewmodel/HomeScreenViewModel.kt:65-107 | the copying events never touch the credit, the history list, the selected amount or the in-progress flag |
| HomeViewModel.ConfirmCustomAmount | app/src/main/java/org/jahangostar/busincreasement/viewmodel/HomeScreenViewModel.kt:67-77 | confirm opens `ShowConfirmTopUp(amount)` and clears the input iff the input parses to an Int > 0; otherwise only the message changes |
| HomeViewModel.EnterCustomAmount | app/src/main/java/org/jahangostar/busincreasement/viewmodel/HomeScreenViewModel.kt:139-146 | only the digits are kept, and they replace the input iff empty or ≤ 2,000,000; otherwise only the message changes |
| HomeViewModel.AcceptedAmountWithinLimit | app/src/main/java/org/jahangostar/busincreasement/viewmodel/HomeScreenViewModel.kt:141 | an accepted input that parses as a Long is at most 2,000,000 |
| HomeViewModel.CustomAmountLimitExact | app/src/main/java/org/jahangostar/busincreasement/viewmodel/HomeScreenViewModel.kt:141 | a number's digits are accepted iff it is ≤ 2,000,000 or too large for a Long, whose failed parse reads as 0 |
| HomeViewModel.PlanTopUp | app/src/main/java/org/jahangostar/busincreasement/viewmodel/HomeScreenViewModel.kt:255-355 | the card is charged iff sector 0 decoded with the configured `uc`, sector 5 decoded, the float covers the payment and the write returned 0; the charge goes from the card's credit to credit + payment |
| HomeViewModel.TopUpUiState | app/src/main/java/org/jahangostar/busincreasement/viewmodel/HomeScreenViewModel.kt:255-367 | the in-progress flag ends false, the waiting dialog never remains, the result dialog shows success iff the card was charged, and the credit shown changes only then |
| HomeViewModel.TopUpRow | app/src/main/java/org/jahangostar/busincreasement/viewmodel/HomeScreenViewModel.kt:284-333 | the ledger row of a charge: operationType 1, price = payment, preCredit and finalCredit = preCredit + payment, card and `uc` from sector 0, unsynced |
| HomeViewModel.ChargeKeepsFloatNonNegative | app/src/main/java/org/jahangostar/busincreasement/viewmodel/HomeScreenViewModel.kt:276-282 | a charge only happens when the float covers the payment, so the stored float is never negative |
| HomeViewModel.WriteStatusDecides | app/src/main/java/org/jahangostar/busincreasement/viewmodel/HomeScreenViewModel.kt:300-355 | past the guards, write code 0 charges and any other code fails with that code |
| HomeViewModel.TopUpExample | app/src/main/java/org/jahangostar/busincreasement/viewmodel/HomeScreenViewModel.kt:284-333 | a card with credit 50,000 and a float of 100,000 take a payment of 20,000 and end at 70,000 |
| HomeViewModel.HistoryUiState | app/src/main/java/org/jahangostar/busincreasement/viewmodel/HomeScreenViewModel.kt:188-238 | the history dialog opens iff sector 0 matches the `uc`, sector 6 decoded, and some record has a device id; it then lists exactly those records |
| HomeViewModel.ShownIffSomeDeviceRecord | app/src/main/java/org/jahangostar/busincreasement/viewmodel/HomeScreenViewModel.kt:210 | the device-id filter keeps something iff some record has a non-zero device id |
| HomeViewModel.CardInfoUiState | app/src/main/java/org/jahangostar/busincreasement/viewmodel/HomeScreenViewModel.kt:148-186 | the dialog ends hidden, a message is always set, and the credit shown changes to the card's credit iff the card matches and sector 5 decoded |
| HomeViewModel.HomeScreenViewModel.OnEvent | app/src/main/java/org/jahangostar/busincreasement/viewmodel/HomeScreenViewModel.kt:65-107 | the UI state becomes `ApplyUiEvent` of the old one; nothing else changes |
| HomeViewModel.HomeScreenViewModel.UpdateOperatorId | app/src/main/java/org/jahangostar/busincreasement/viewmodel/HomeScreenViewModel.kt:372-376 | only the operator id changes |
| HomeViewModel.HomeScreenViewModel.ObserveLocalBalance | app/src/main/java/org/jahangostar/busincreasement/viewmodel/HomeScreenViewModel.kt:451-459 | a stored balance replaces the cached float; a null one keeps it |
| HomeViewModel.HomeScreenViewModel.SaveTransaction | app/src/main/java/org/jahangostar/busincreasement/viewmodel/HomeScreenViewModel.kt:378-418 | dropped while a save runs; otherwise the ledger is that of `saveRemoteTransaction`, and the save ends with saved iff `Success`, else the server's `Failure` message or the fixed send error |
| HomeViewModel.HomeScreenViewModel.HandleCardTopUp | app/src/main/java/org/jahangostar/busincreasement/viewmodel/HomeScreenViewModel.kt:240-370 | while busy only the message is set; otherwise the UI state is `TopUpUiState` of `PlanTopUp`, and only a charge stores float − payment and saves `TopUpRow` |
| HomeViewModel.HomeScreenViewModel.RecordCharge | app/src/main/java/org/jahangostar/busincreasement/viewmodel/HomeScreenViewModel.kt:312-333 | the float less the payment is stored under key 1, then the row is saved |
| HomeViewModel.HomeScreenViewModel.ReadCardInfo | app/src/main/java/org/jahangostar/busincreasement/viewmodel/HomeScreenViewModel.kt:148-186 | the UI state becomes `CardInfoUiState` of the card read |
| HomeViewModel.HomeScreenViewModel.GetHistoryFromCard | app/src/main/java/org/jahangostar/busincreasement/viewmodel/HomeScreenViewModel.kt:188-238 | the UI state becomes `HistoryUiState` of the card read |
| HomeScreen.IsValidAmount | app/src/main/java/org/jahangostar/busincreasement/ui/screen/home/HomeScreen.kt:546-554 | true iff the string parses as a Long in [2000, 1,000,000,000] |
| HomeScreen.ValidAmountOfNumber | app/src/main/java/org/jahangostar/busincreasement/ui/screen/home/HomeScreen.kt:546-554 | a number written in decimal is valid iff it lies in the range |
| HomeScreen.NonNumericAmountInvalid | app/src/main/java/org/jahangostar/busincreasement/ui/screen/home/HomeScreen.kt:550-553 | a string with a non-digit past the sign is invalid rather than an error |
| HomeScreen.CardUc | app/src/main/java/org/jahangostar/busincreasement/ui/screen/home/HomeScreen.kt:152 | the device's `uc` if it parses as an Int, else 1 |
| HomeScreen.DecidePayment | app/src/main/java/org/jahangostar/busincreasement/ui/screen/home/HomeScreen.kt:127-179 | a null or blank result never tops up; a top-up needs status "0" and an amount > 0 and carries `CardUc`; a failure quotes the app's message |
| HomeScreen.ConfirmedAmountWins | app/src/main/java/org/jahangostar/busincreasement/ui/screen/home/HomeScreen.kt:146-147 | while the confirmation dialog is open its amount is charged |
| HomeScreen.ResultAmountUsed | app/src/main/java/org/jahangostar/busincreasement/ui/screen/home/HomeScreen.kt:148-165 | otherwise the result's amount is charged when it parses to an Int > 0, and a missing or unparsable amount charges nothing |
| HomeScreen.FailedPaymentNeverTopsUp | app/src/main/java/org/jahangostar/busincreasement/ui/screen/home/HomeScreen.kt:167-174 | a status other than "0" never tops up |
| DeviceReport.InitialReportState | app/src/main/java/org/jahangostar/busincreasement/ui/screen/report/DeviceReportUiState.kt:6-16 | both dates at the current time, no total, no rows, no dialog, not syncing, no message |
| DeviceReport.ChargeShown | app/src/main/java/org/jahangostar/busincreasement/viewmodel/DeviceReportViewModel.kt:73 | 0 when no charge lies in range, else the DAO's total; always the sum of `price` over the charges in range |
| DeviceReport.NewChargeRaisesTotal | app/src/main/java/org/jahangostar/busincreasement/viewmodel/DeviceReportViewModel.kt:72-77 | a new charge inside the range raises the shown total by its price |
| DeviceReport.AllSentClearsBacklog | app/src/main/java/org/jahangostar/busincreasement/viewmodel/DeviceReportViewModel.kt:111-112 | when every unsynced row is answered `Success`, none is left unsynced |
| DeviceReport.DeviceReportViewModel.OnDateRangeChanged | app/src/main/java/org/jahangostar/busincreasement/viewmodel/DeviceReportViewModel.kt:61-63 | only the two dates change |
| DeviceReport.DeviceReportViewModel.UpdateSummaries | app/src/main/java/org/jahangostar/busincreasement/viewmodel/DeviceReportViewModel.kt:72-77 | only the total changes, to `ChargeShown` |
| DeviceReport.DeviceReportViewModel.ShowUnsyncedTransactions | app/src/main/java/org/jahangostar/busincreasement/viewmodel/DeviceReportViewModel.kt:79-87 | the list becomes the unsynced rows and the dialog is visible |
| DeviceReport.DeviceReportViewModel.DismissUnsyncedTransactionsDialog | app/src/main/java/org/jahangostar/busincreasement/viewmodel/DeviceReportViewModel.kt:89-91 | only the visibility flag changes |
| DeviceReport.DeviceReportViewModel.ClearAllLocalTransactions | app/src/main/java/org/jahangostar/busincreasement/viewmodel/DeviceReportViewModel.kt:93-98 | the ledger is empty and the total shown becomes 0 |
| DeviceReport.DeviceReportViewModel.PostUnsentTransactions | app/src/main/java/org/jahangostar/busincreasement/viewmodel/DeviceReportViewModel.kt:104-124 | a no-op while syncing; otherwise the sync ends not syncing, with the repository's summary and its marks, or with the error text and no change |
| DeviceReport.DeviceReportViewModel.OnSnackbarShown | app/src/main/java/org/jahangostar/busincreasement/viewmodel/DeviceReportViewModel.kt:129-131 | only the message is cleared |
| ServerConfigs.NewServerConfig | app/src/main/java/org/jahangostar/busincreasement/data/model/ServerConfig.kt:8-13 | the settings row has the default key 1 |
| ServerConfigs.IsEmpty | app/src/main/java/org/jahangostar/busincreasement/data/model/ServerConfig.kt:14-16 | true iff some field is blank |
| ServerConfigs.NotEmptyIff | app/src/main/java/org/jahangostar/busincreasement/data/model/ServerConfig.kt:14-16 | usable iff each field has a non-whitespace character |
| ServerConfigs.BlankExamples | app/src/main/java/org/jahangostar/busincreasement/data/model/ServerConfig.kt:14-16 | an address of spaces or an empty one is blank; one padded with spaces is not |

## Left out

- The card codec and the NFC hardware (`Mifare`, `CardUtils`) are not part of this model. A card read is its parsed `FullCardData` and a card write its status code. No byte layout is assumed.
- The network is not modelled. Each `SqlResponse`, fetched list and balance increment is an input. `SqlService`, `SqlConnection` and the reconnect loop are not part of this model.
- `getHistoryFromServer` and `fetchRemoteTransactions` are not modelled. They only copy a fetched list into the UI state, and that list comes from the network.
- `observeLocalDevice` is not modelled. The device id is a field set at construction, and the device table (`DeviceDao`) is not part of this model.
- Coroutines, `async`/`awaitAll`, `delay`, Flows and `viewModelScope` are not modelled. Each operation runs to completion, so race windows (such as the in-progress flag being set inside `launch`) are not captured. A Flow observation is one read of the table.
- Exceptions are not modelled, with one exception: an error raised in `DeviceReportViewModel.postUnsentTransactions` before anything was posted is the `failure` argument. Errors thrown mid-loop, the `catch` in `saveTransaction` and the database error caught after a card write are left out.
- Compose UI, Persian calendar dates, number formatting and the exact Persian texts are not modelled. Each text is a constructor that keeps what it quotes.
- Paging (`Pager`, `PagingSource`) is not modelled. `Ledger.DeviceReport` is the whole query result, not its pages.
- Repository.SqlServerRepository.PostUnsentTransactions: requires one answer per row (`|responses| == |transactions|`). Answers after a disconnect are supplied but never read.
- HomeViewModel.PlanTopUp: does not model 32-bit wrap-around of `preCredit + paymentAmount` or of `balance - paymentAmount`. Kotlin `Int` is read as an unbounded integer throughout.
- HomeViewModel.HomeScreenViewModel.HandleCardTopUp: the balance save and the ledger save run one after the other, not as concurrent jobs.
- Text.IsDigit: ASCII digits only. Kotlin's `isDigit` and `toIntOrNull` also accept other Unicode decimal digits.
- CardHistory.SortNewestFirst: does not state that `sortedWith` is stable. Records with equal timestamps may come out in any order.
- Users.ObserveAll: does not state stability either. Names are compared by code point, as SQLite's BINARY collation does on UTF-8 text.
- Credits.CreditDao.ObserveAll: `SELECT * FROM default_credit` has no `ORDER BY`. The model returns key order, which is the order SQLite scans the table in.
