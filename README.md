# Vendor back-office console: table, lock and form logic in Dafny

This project models the parts of the vendor back-office console (a React/TypeScript
single-page app) that hold real logic, and proves properties of that model:

- **The table view projector.** The offline DTH table and the utility, recharge and
  refund report tables share it. It filters rows by a case-insensitive search,
  copies and sorts them with a comparator built from the sort configuration, and
  cuts a ten-row page with `slice`. Around it are the Previous/Next buttons, the
  sort-header toggle and the total of successful amounts. `Array.prototype.sort` is
  stable (ECMA-262, 2019 edition, section 22.1.3.27). The model defines it as a
  stable insertion sort and proves three things about it: the result is a
  permutation, it is ordered, and equal keys keep their input order. It then proves
  that only one sequence has all three properties.
- **The per-record lock coordinator of the offline DTH table.** It covers polling,
  "Proceed", which locks a record and opens the edit modal, and the save, refund and
  close actions, which release that record.
- **The three date-driven report tables.** They share one generic `ReportTable`
  class: date selects, a dirty flag, Fetch Data, the fetch outcome, search, sort
  and paging.
- **The login slice of the Redux store.** This is its initial state and six case
  reducers.
- **Two input sanitisers and their forms:**
  - the ledger-id digit filter of the transaction recovery form, with its
    validation and message selection;
  - the subscriber-name filter of the Update Subscriber Name modal.

Every event handler is one atomic step. The handlers in the source `await` a network
call and then change state again. Those handlers are split at the `await`, so the
answer arrives as a parameter of the second step:

- `BeginLock` / `CompleteLock` for the lock request;
- `HandleFetchClick` / `CompleteFetch` for a report fetch;
- `BeginRecover` / `CompleteRecover` for a recovery;
- `BeginPoll` / `CompletePoll` for a poll, which clears the error before its request.

Save and refund change nothing before their `await`. Each of them is one step
that takes the server's answer as input. An answer is a `Reply`, defined in
`http.dfy`. It is one of two cases:

- `Rejected(reason)`: `fetch` or `json()` threw an error;
- `Received(ok, status, statusText, body)`: the server answered, and `body` holds
  `IsSuccess`, an optional `Message` and an optional payload.

Files:

| file | contents |
|---|---|
| `wrappers.dfy` | `Option` |
| `seqs.dfy` | `Filter` and its permutation, subsequence and idempotence lemmas |
| `text.dfy` | ASCII case mapping, `includes`, JavaScript `trim`, decimal rendering, `padStart(2, "0")` |
| `http.dfy` | the reply datatype |
| `table_view.dfy` | the shared projector |
| `offline_table.dfy` | the offline DTH table and its Process Data modal |
| `report_table.dfy` | the generic report table |
| `utility_details.dfy`, `recharge_details.dfy`, `refund_details.dfy` | the three report instances |
| `login_reducer.dfy` | the login slice |
| `transaction_recovery.dfy` | the transaction recovery form |
| `customer_modal.dfy` | the Update Subscriber Name modal |

Some of the code's behaviour is easy to misread. The model follows the code:

- **A refund with missing identifiers fails silently.** The Process Data modal's
  refund with a zero or missing service number or user id only logs to the console.
  No failure notification appears (`RefundRequest` is `None`, and nothing else
  happens).
- **A poll that fails keeps the old records.** A poll that ends in an HTTP error or
  a thrown error sets `error` and keeps the records. The component then shows its
  error screen in place of the table until the next poll starts: that poll clears
  `error` before its request, so the old records show while it is in flight.
- **The offline table counts pages over all records.** Its page count is taken over
  all records, not the ones the search keeps. Next can therefore lead to an empty
  page (`NextCanReachEmptyPage`).
- **Save and refund ignore the HTTP status.** They read the JSON body whatever the
  status and succeed on `IsSuccess` alone.
- **The refund report has no search box.** Its search term is always empty.
- **Overlapping lock successes can leave a record locked.** If two lock requests
  for different records are both granted, the second edit session replaces the
  first. Closing it releases only the second record, so the first stays in
  `lockedRecords`. The model allows this interleaving. `Valid` only requires the
  record being edited to be locked.

## Model

| member | source | states |
|---|---|---|
| TableView.ValueTrichotomy | src/pages/Tables/offlineDataTable/offlineDataTable.tsx:526-532 | JavaScript `<` on one field's values is a strict total order: at most one of a<b and b<a holds, and neither holds exactly when the values are equal |
| TableView.ValueLessTransitive | src/pages/Tables/offlineDataTable/offlineDataTable.tsx:526-532 | the value order is transitive |
| TableView.NumeralStringsCompareAsText | src/pages/VendorList/GetRefundDetails/RefundDetailsTable.tsx:170-177 | an example on one fixed input, not an all-inputs lemma: strings compare by characters, so "10" < "9" and not "9" < "10" |
| TableView.CompareProperties | src/pages/Tables/offlineDataTable/offlineDataTable.tsx:526-532 | the comparator answers 0 iff the keys are equal, is antisymmetric, and is negative iff `a` belongs before `b` in the configured direction |
| TableView.CompareTransitive | src/pages/Tables/offlineDataTable/offlineDataTable.tsx:526-532 | "not after" under the comparator is transitive, so the comparator is consistent as `sort` requires |
| TableView.SortBySpec | src/pages/Tables/offlineDataTable/offlineDataTable.tsx:526-532 | the sorted copy is a permutation of the input, ordered under the comparator, and keeps equal-key records in input order (stable) |
| TableView.SortedStableUnique | src/pages/Tables/offlineDataTable/offlineDataTable.tsx:526-532 | two ordered, stable permutations of the same records are the same sequence, so any stable sort gives the rows the model gives |
| TableView.PageOfSpec | src/pages/Tables/offlineDataTable/offlineDataTable.tsx:533-534 | page p >= 1 holds min(10, max(0, n - 10(p-1))) rows, the ones from position 10(p-1) on |
| TableView.ProjectSpec | src/pages/Tables/offlineDataTable/offlineDataTable.tsx:519-535 | every shown row is a record that passes the filter, and the page is the page-th block of ten of the unique stable ordering of the kept records |
| TableView.TotalPagesSpec | src/pages/VendorList/UtilityDetails/utilityDetails.tsx:151 | `Math.ceil(n/10)` is the number of pages with a row: page p is non-empty iff p <= total; total*10 >= n; total is 0 iff there are no rows |
| TableView.ClickPrevious | src/pages/Tables/offlineDataTable/offlineDataTable.tsx:811-812 | Previous never leaves page 1 or below it, and otherwise goes back exactly one page |
| TableView.ClickNext | src/pages/Tables/offlineDataTable/offlineDataTable.tsx:822-823 | Next stays within 1..total from a page in that range, advances by one below the last page, and does nothing with no pages |
| TableView.ToggleSort | src/pages/Tables/offlineDataTable/offlineDataTable.tsx:537-544 | the clicked key becomes the key; the direction is descending iff the config was that key ascending |
| TableView.ToggleAlternates | src/pages/VendorList/UtilityDetails/utilityDetails.tsx:164-173 | repeated clicks on one header alternate direction with period two, and a click on a new key sorts ascending |
| TableView.SuccessfulMembership | src/pages/VendorList/UtilityDetails/utilityDetails.tsx:155-157 | a record counts toward the total iff it was fetched and its lower-cased status is "success" |
| TableView.SuccessTotalSpec | src/pages/VendorList/UtilityDetails/utilityDetails.tsx:155-160 | the left-to-right `reduce` equals the plain sum of the amounts of the successful records |
| Text.ContainsIffOccurs | src/pages/Tables/offlineDataTable/offlineDataTable.tsx:522 | `includes` holds iff the term occurs at some position of the text |
| Text.TrimEmptyIff | src/pages/VendorList/transactionrecovery/TransactionRecovery.tsx:89 | `trim()` gives "" iff every character is JavaScript whitespace |
| Text.DecimalRoundTrip | src/pages/VendorList/UtilityDetails/utilityDetails.tsx:100-101 | `String(n)` reads back as n |
| OfflineTable.MatchesSpec | src/pages/Tables/offlineDataTable/offlineDataTable.tsx:519-525 | a record is kept iff the lower-cased term occurs in its lower-cased operator name, number or circle; no other field is searched |
| OfflineTable.EmptySearchKeepsAll | src/pages/Tables/offlineDataTable/offlineDataTable.tsx:519-525 | an empty search keeps every record, in order |
| OfflineTable.VisibleSpec | src/pages/Tables/offlineDataTable/offlineDataTable.tsx:519-535 | every row on screen is a stored record matching the search, and the page is cut from the unique stable ordering by the configured key |
| OfflineTable.NextCanReachEmptyPage | src/pages/Tables/offlineDataTable/offlineDataTable.tsx:651 | with 11 records of which 1 matches, Next goes to page 2 (the count is over all records) and page 2 shows nothing |
| OfflineTable.CustomerForModal | src/pages/Tables/offlineDataTable/offlineDataTable.tsx:653-667 | the modal has a customer iff a record is being edited, with that record's id, number, operator, circle, service number and user id |
| OfflineTable.RefundRequest | src/pages/Tables/offlineDataTable/offlineDataTable.tsx:172-184 | a refund request is made iff there is a customer whose service number and user id are both non-zero, and it carries those two values |
| OfflineTable.RefundNamesEditingRecord | src/pages/Tables/offlineDataTable/offlineDataTable.tsx:172-184 | through the modal, a refund is asked for iff a record is edited with both ids set, and it names that record's service number and recharge user id |
| OfflineTable.ProcessDataModal.constructor | src/pages/Tables/offlineDataTable/offlineDataTable.tsx:144-147 | both inputs start empty and the QR code starts loading |
| OfflineTable.ProcessDataModal.OnOpen | src/pages/Tables/offlineDataTable/offlineDataTable.tsx:149-156 | opening the modal empties both inputs and restarts the QR spinner |
| OfflineTable.ProcessDataModal.SetConfNumber | src/pages/Tables/offlineDataTable/offlineDataTable.tsx:377 | typing sets the confirmation number only |
| OfflineTable.ProcessDataModal.SetOpRefId | src/pages/Tables/offlineDataTable/offlineDataTable.tsx:403 | typing sets the operator reference id only |
| OfflineTable.ProcessDataModal.QrLoaded | src/pages/Tables/offlineDataTable/offlineDataTable.tsx:279-281 | the QR image's load or error ends the spinner and changes nothing else |
| OfflineTable.ProcessDataModal.Submit | src/pages/Tables/offlineDataTable/offlineDataTable.tsx:160-169 | the form submits iff both required inputs are non-empty; the payload carries them as typed, with the customer's record id and user id iff there is a customer |
| OfflineTable.LockFailureMessage | src/pages/Tables/offlineDataTable/offlineDataTable.tsx:563-576 | a refused lock shows the server's `Message` or "Failed to lock the record."; an HTTP error shows its status line; a thrown error shows its own message |
| OfflineTable.ActionFailureMessage | src/pages/Tables/offlineDataTable/offlineDataTable.tsx:603-610 | a failed save or refund shows the body's `Message` or the fallback, or the thrown error's message |
| OfflineTable.PollSpec | src/pages/Tables/offlineDataTable/offlineDataTable.tsx:491-513 | a poll reports an error iff it got no 2xx answer, and then keeps the records; otherwise it replaces them wholesale with the server's list, or with [] when there is none |
| OfflineTable.OfflineTable.constructor | src/pages/Tables/offlineDataTable/offlineDataTable.tsx:447-489 | initial state is RecordID ascending, page 1, nothing locked; polling starts iff the stored user parses and has a truthy `FibePeID`, otherwise the matching error is shown and loading ends |
| OfflineTable.OfflineTable.BeginPoll | src/pages/Tables/offlineDataTable/offlineDataTable.tsx:491-492 | the start of a poll clears the error before its request, so the old records show again while it is in flight; nothing else changes |
| OfflineTable.OfflineTable.CompletePoll | src/pages/Tables/offlineDataTable/offlineDataTable.tsx:493-512 | the answer sets the records as `PolledRecords` says and ends loading; an error answer sets the error as `PolledError` says, any other answer leaves the error as it is (another overlapping poll may have set it); the lock set, the edit session, the view state and the modals are untouched |
| OfflineTable.PollAlone | src/pages/Tables/offlineDataTable/offlineDataTable.tsx:491-513 | a poll that no other poll overlaps leaves exactly the error its own answer gives (`PolledError`) and the records `PolledRecords` gives, whatever error an earlier poll left |
| OfflineTable.OfflineTable.SetSearchTerm | src/pages/Tables/offlineDataTable/offlineDataTable.tsx:693-696 | typing a search sets the term and returns to page 1, nothing else |
| OfflineTable.OfflineTable.HandleSort | src/pages/Tables/offlineDataTable/offlineDataTable.tsx:537-544 | a header click sets the toggled config and returns to page 1, nothing else |
| OfflineTable.OfflineTable.PreviousPage | src/pages/Tables/offlineDataTable/offlineDataTable.tsx:811 | Previous sets the clamped page, nothing else |
| OfflineTable.OfflineTable.NextPage | src/pages/Tables/offlineDataTable/offlineDataTable.tsx:822-823 | Next sets the page clamped to the count over all records, nothing else |
| OfflineTable.OfflineTable.BeginLock | src/pages/Tables/offlineDataTable/offlineDataTable.tsx:546-548 | Proceed sends a lock request iff the record is not locked and an operator id is known, and then adds exactly that id to the lock set before the answer |
| OfflineTable.OfflineTable.CompleteLock | src/pages/Tables/offlineDataTable/offlineDataTable.tsx:557-583 | a granted lock opens the edit session on the record, which stays locked; any other answer removes exactly that id and opens the failure modal with `LockFailureMessage` |
| OfflineTable.OfflineTable.ToggleEditModal | src/pages/Tables/offlineDataTable/offlineDataTable.tsx:639-649 | the modal always flips; closing an edit session removes exactly the edited id from the lock set and clears the editing record |
| OfflineTable.OfflineTable.FinishAction | src/pages/Tables/offlineDataTable/offlineDataTable.tsx:599-611 | on `IsSuccess` it shows the success text and closes the session, releasing exactly its record; otherwise it shows the failure message and leaves the session and locks as they were |
| OfflineTable.OfflineTable.HandleSave | src/pages/Tables/offlineDataTable/offlineDataTable.tsx:587-612 | a successful update shows "Record updated successfully!" and releases exactly the edited record, leaving the failure modal as it was; a failure shows the body's message or "Failed to update record." and keeps the session, locks and success modal; records, view state, loading and polling never change |
| OfflineTable.OfflineTable.HandleRefund | src/pages/Tables/offlineDataTable/offlineDataTable.tsx:615-637 | the same for a refund, with "Refund processed successfully!" and "Failed to process refund." |
| OfflineTable.OfflineTable.CloseSuccessModal | src/pages/Tables/offlineDataTable/offlineDataTable.tsx:839 | closes the success modal, keeps the lock invariant, and changes no other field |
| OfflineTable.OfflineTable.CloseFailureModal | src/pages/Tables/offlineDataTable/offlineDataTable.tsx:845 | closes the failure modal, keeps the lock invariant, and changes no other field |
| OfflineTable.LockThenSave | src/pages/Tables/offlineDataTable/offlineDataTable.tsx:546-649 | Proceed on a free record, a granted lock and a successful save leave the lock set and the records as they were, with the success modal open |
| Reports.EmptySearchKeepsAll | src/pages/VendorList/UtilityDetails/utilityDetails.tsx:131-137 | an empty search keeps every record in order (every record has a field) |
| Reports.PaddedSpec | src/pages/VendorList/UtilityDetails/utilityDetails.tsx:100-101 | a day or month below 100 is sent as two digits reading back as the number: 1-9 get a leading "0", 10 and up are unchanged |
| Reports.DateQuerySpec | src/pages/VendorList/UtilityDetails/utilityDetails.tsx:104 | the query carries the day and the month as two digits each at fixed positions, reading back as the selected values, then the year unpadded |
| Reports.FetchSpec | src/pages/VendorList/UtilityDetails/utilityDetails.tsx:111-127 | a fetch errors iff it got no 2xx answer, and then there is a non-empty message and no rows; otherwise the rows are the server's list, or none |
| Reports.TotalAmountSpec | src/pages/VendorList/UtilityDetails/utilityDetails.tsx:153-161 | the total is 0 before the first fetch, then the sum of the amounts of the fetched records whose status is "success" in any letter case, whatever the search; `UtilityDetails.Total` and `RechargeDetails.Total` are its instances |
| Reports.ReportTable.constructor | src/pages/VendorList/UtilityDetails/utilityDetails.tsx:72-83 | first render: nothing fetched, page 1, the default key descending, today's date selected, the form dirty |
| Reports.ReportTable.SelectDay | src/pages/VendorList/UtilityDetails/utilityDetails.tsx:237-240 | choosing a day sets it and makes the form dirty, nothing else |
| Reports.ReportTable.SelectMonth | src/pages/VendorList/UtilityDetails/utilityDetails.tsx:247-250 | choosing a month sets it and makes the form dirty, nothing else |
| Reports.ReportTable.SelectYear | src/pages/VendorList/UtilityDetails/utilityDetails.tsx:257-260 | choosing a year sets it and makes the form dirty, nothing else |
| Reports.ReportTable.HandleFetchClick | src/pages/VendorList/UtilityDetails/utilityDetails.tsx:175-181 | with the button enabled (not loading, dirty), the form becomes clean, searched, page 1 and loading, and the request asks for the selected date |
| Reports.ReportTable.CompleteFetch | src/pages/VendorList/UtilityDetails/utilityDetails.tsx:103-127 | the answer sets the rows and error as `FetchedRecords`/`FetchError` say and loading ends, keeping the view state |
| Reports.ReportTable.SetSearchTerm | src/pages/VendorList/UtilityDetails/utilityDetails.tsx:311-314 | typing a search sets the term and returns to page 1 |
| Reports.ReportTable.HandleSort | src/pages/VendorList/UtilityDetails/utilityDetails.tsx:164-173 | a header click sets the toggled config and returns to page 1 |
| Reports.ReportTable.PreviousPage | src/pages/VendorList/UtilityDetails/utilityDetails.tsx:370 | Previous sets the clamped page |
| Reports.ReportTable.NextPage | src/pages/VendorList/UtilityDetails/utilityDetails.tsx:372 | Next sets the page clamped to the count over the kept records, and never passes that count from a page within it |
| Reports.ShownPagesSpec | src/pages/VendorList/UtilityDetails/utilityDetails.tsx:147-151 | a page shows rows iff its number is at most the page count of the kept records |
| UtilityDetails.SearchSpec | src/pages/VendorList/UtilityDetails/utilityDetails.tsx:131-137 | a utility record is found iff the term occurs in one of its ten fields, numbers by their decimal text, the undisplayed creation date included |
| UtilityDetails.NewTable | src/pages/VendorList/UtilityDetails/utilityDetails.tsx:72-83 | the utility table starts sorted by `LedgerId` descending with its own fallback error |
| RechargeDetails.SearchSpec | src/pages/VendorList/RechargeDetails/RechargeDetails.tsx:112-118 | a recharge record is found iff the term occurs in one of its ten fields |
| RechargeDetails.NewTable | src/pages/VendorList/RechargeDetails/RechargeDetails.tsx:53-69 | the recharge table starts sorted by `LedgerId` descending |
| RefundDetails.Field | src/pages/VendorList/GetRefundDetails/RefundDetailsTable.tsx:6-17 | every refund column is a string, one of the record's field texts |
| RefundDetails.LedgerIdsSortAsText | src/pages/VendorList/GetRefundDetails/RefundDetailsTable.tsx:170-177 | an example on fixed inputs, not an all-inputs lemma: sorting ledger ids "9" and "10" descending puts "9" first from either input order |
| RefundDetails.NoSearchListsAll | src/pages/VendorList/GetRefundDetails/RefundDetailsTable.tsx:162-168 | with the search term left empty, every fetched refund is listed |
| RefundDetails.NewTable | src/pages/VendorList/GetRefundDetails/RefundDetailsTable.tsx:75-80 | the refund table starts sorted by `Ledger_Id` descending with "An unknown error occurred" as fallback |
| LoginReducer.Prop | src/slices/auth/login/reducer.ts:18 | reading a property gives the field's value, or `undefined` when it is missing |
| LoginReducer.Reduce | src/slices/auth/login/reducer.ts:16-49 | `apiError` and `loginSuccess` with a `null`/`undefined` payload throw and leave the state as it was; no reducer turns `loading` on, and `setUserProfile`/`setToken` leave it as it was |
| LoginReducer.LoadingStaysFalse | src/slices/auth/login/reducer.ts:3-48 | from a state with `loading` false, for example the initial one, `loading` stays false after any run of actions |
| LoginReducer.ReduceFrames | src/slices/auth/login/reducer.ts:17-48 | every reducer leaves the fields it does not assign unchanged; `setUserProfile` and `setToken` change only `user` and `token` |
| LoginReducer.LogoutForgetsSession | src/slices/auth/login/reducer.ts:32-42 | logout clears token and profile and sets `isUserLogout` whatever the payload, and `reset_login_flag` does not undo it |
| LoginReducer.ResetClearsError | src/slices/auth/login/reducer.ts:17-42 | an error followed by a reset leaves error "" and the error and loading flags clear, keeping token, profile and user; `isUserLogout` is cleared iff the error's payload could be read |
| LoginReducer.ResetIdempotent | src/slices/auth/login/reducer.ts:38-42 | resetting twice is resetting once |
| LoginReducer.LoginSlice.constructor | src/slices/auth/login/reducer.ts:3-11 | the slice starts in `initialState` |
| LoginReducer.LoginSlice.ApiErrorReducer | src/slices/auth/login/reducer.ts:17-22 | `apiError` throws iff its payload is `null`/`undefined`, and updates the state exactly as `Reduce` says |
| LoginReducer.LoginSlice.LoginSuccessReducer | src/slices/auth/login/reducer.ts:25-31 | `loginSuccess` throws iff its payload is `null`/`undefined`, and updates the state exactly as `Reduce` says |
| LoginReducer.LoginSlice.LogoutUserSuccessReducer | src/slices/auth/login/reducer.ts:32-37 | `logoutUserSuccess` updates the state exactly as `Reduce` says |
| LoginReducer.LoginSlice.ResetLoginFlagReducer | src/slices/auth/login/reducer.ts:38-42 | `reset_login_flag` updates the state exactly as `Reduce` says |
| LoginReducer.LoginSlice.SetUserProfileReducer | src/slices/auth/login/reducer.ts:43-45 | `setUserProfile` updates the state exactly as `Reduce` says |
| LoginReducer.LoginSlice.SetTokenReducer | src/slices/auth/login/reducer.ts:46-48 | `setToken` updates the state exactly as `Reduce` says |
| LoginReducer.LoginSlice.Dispatch | src/slices/auth/login/reducer.ts:16-49 | dispatching any action updates the state as `Reduce` says, and reports a throw exactly for the two reducers' unreadable payloads |
| TransactionRecovery.DigitsOnly | src/pages/VendorList/transactionrecovery/TransactionRecovery.tsx:129-133 | the filtered id is all digits and no longer than the input |
| TransactionRecovery.DigitsOnlySpec | src/pages/VendorList/transactionrecovery/TransactionRecovery.tsx:131 | the filter keeps every digit as often as it occurs, drops every other character, and keeps the input's order |
| TransactionRecovery.DigitsOnlyIdempotent | src/pages/VendorList/transactionrecovery/TransactionRecovery.tsx:131 | filtering twice is filtering once, and all-digit input passes unchanged |
| TransactionRecovery.DigitsBlankIffEmpty | src/pages/VendorList/transactionrecovery/TransactionRecovery.tsx:89-93 | a filtered id is blank after `trim` iff it is empty |
| TransactionRecovery.RefusalMessage | src/pages/VendorList/transactionrecovery/TransactionRecovery.tsx:114-117 | the refusal shows the payload's status code if truthy, else the body's message if truthy, else "Failed to recover the transaction."; never empty |
| TransactionRecovery.FailureMessage | src/pages/VendorList/transactionrecovery/TransactionRecovery.tsx:104-121 | a failed recovery shows the HTTP status line, the refusal message, or the thrown message or the generic one; never empty |
| TransactionRecovery.RecoveryForm.constructor | src/pages/VendorList/transactionrecovery/TransactionRecovery.tsx:74-83 | the form starts empty, idle, with both modals closed |
| TransactionRecovery.RecoveryForm.InputChange | src/pages/VendorList/transactionrecovery/TransactionRecovery.tsx:129-133 | typing stores the digits of the input and nothing else |
| TransactionRecovery.RecoveryForm.BeginRecover | src/pages/VendorList/transactionrecovery/TransactionRecovery.tsx:88-97 | from any state, submitting included (the form's submit is not gated): a request for the id goes out iff it is non-blank, marking the form submitting and clearing both messages; a blank id opens the failure modal with "Ledger ID cannot be empty." and leaves `isSubmitting` as it was |
| TransactionRecovery.RecoveryForm.CompleteRecover | src/pages/VendorList/transactionrecovery/TransactionRecovery.tsx:99-125 | a recovery opens the success modal with the revert ledger id and clears the input; anything else opens the failure modal with `FailureMessage`; submitting ends on every path, also for the answer to an overlapping request |
| TransactionRecovery.RecoveryForm.ToggleSuccessModal | src/pages/VendorList/transactionrecovery/TransactionRecovery.tsx:85 | flips the success modal only |
| TransactionRecovery.RecoveryForm.ToggleFailureModal | src/pages/VendorList/transactionrecovery/TransactionRecovery.tsx:86 | flips the failure modal only |
| CustomerModal.SanitizeName | src/pages/Tables/offlineDataTable/CustomerModal.tsx:48-54 | the stored name contains only A-Z and whitespace and is no longer than the input |
| CustomerModal.SanitizeNameSpec | src/pages/Tables/offlineDataTable/CustomerModal.tsx:50-52 | the name keeps every upper-cased letter and whitespace character as often as it occurs, drops the rest, and keeps their order |
| CustomerModal.SanitizeNameIdempotent | src/pages/Tables/offlineDataTable/CustomerModal.tsx:50-52 | sanitising a sanitised name changes nothing |
| CustomerModal.NameModal.constructor | src/pages/Tables/offlineDataTable/CustomerModal.tsx:39 | the name starts empty |
| CustomerModal.NameModal.OnOpen | src/pages/Tables/offlineDataTable/CustomerModal.tsx:41-46 | opening the modal empties the name |
| CustomerModal.NameModal.HandleChange | src/pages/Tables/offlineDataTable/CustomerModal.tsx:48-54 | typing stores the sanitised input |
| CustomerModal.NameModal.HandleSave | src/pages/Tables/offlineDataTable/CustomerModal.tsx:56-66 | an empty name only alerts; otherwise `onSave(subscriberId, name)` runs when there is a customer, then `toggle` always; the modal toggles iff the name is non-empty |

## Left out

- Network requests, URL building and JSON decoding: each answer is a `Reply` input.
  The save and refund request parameters appear only as the `UpdatePayload` and
  `RefundPayload` the modal hands over.
- The five-second poll timer and its cleanup. The timer only decides when
  `BeginPoll` happens; the model lets polls overlap and answers arrive in any order,
  because `CompletePoll` may follow any other step.
- React's scheduling and stale closures: every handler is one atomic step.
  - In the source, a save or refund that succeeds after the operator has closed the
    edit modal calls `toggleEditModal` again and reopens an empty modal.
  - OfflineTable.OfflineTable.ToggleEditModal: promises `Valid` only when the modal
    was open. Opening it with no record being edited can only happen through that
    stale path.
- Session and local storage: the operator id read at mount is a parameter
  (`StoredUser`). The report tables' persistence of records, date and sort to
  `sessionStorage` is not modelled, and neither is the refund table's refetch on
  mount from stored state.
- The Excel export (XLSX and file-saver libraries).
- Floating-point amounts and `toLocaleString` currency formatting. Amounts are
  integers.
- JavaScript string semantics beyond ASCII:
  - `toLowerCase`/`toUpperCase` map only A-Z/a-z;
  - `\s` and `trim` use the whitespace set in `text.dfy`;
  - string comparison is on Dafny characters, not UTF-16 code units;
  - `String(n)` is the decimal rendering of an integer.
- The free-form typing of response fields: a field the source treats as a number
  is an `int`, one it treats as text is a `string`.
- UtilityDetails.SearchSpec: assumes each fetched record has exactly the ten
  declared fields, none of them `null`. The search runs `Object.values` on the raw
  JSON object, so it also searches any extra field the server sends. A `null` field
  matches "null" and a nested object matches "[object Object]".
- RechargeDetails.SearchSpec: makes the same assumption about recharge records.
- RefundDetails.Texts: makes the same assumption about refund records. With the
  term always empty, every refund is listed either way.
- The refund table's `reportType`, which never reaches the request URL.
- The day, month and year option lists, which depend on the clock. A select
  handler accepts any integer.
- `Number(e.target.value)` coercion in the selects: an option value is always a
  numeral.
- The success modal's two-second auto-dismiss timer, the QR-code image service and
  all rendering.
