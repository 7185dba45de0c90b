# Create-collection page of the Bitblock NFT launchpad, in Dafny

This project models the only page of the launchpad front end that does more than render:
`frontend/pages/CreateCollection.tsx`. On that page the creator picks a folder of assets and a
mint window, then presses **Create Collection**. The handler then does the following:

1. It checks four guards: a wallet is connected, files are selected, the account is the
   configured creator, and no upload is already in progress.
2. It sets the `isUploading` busy flag.
3. It uploads the folder, signs and submits a `create_collection` transaction, and waits for
   the commit.
4. It navigates to `/my-collections` when the commit reports success, and alerts any error.
5. It clears the busy flag in a `finally` block.

The page also has two time-of-day handlers. They merge an `"HH:MM"` text into the selected start
or end `Date` object in place. A few boolean expressions enable or disable the Create button, the
folder input and the form inputs, and decide which warnings are shown.

The modules are:

- `Wrappers`: an `Option` for values that may be `undefined` or `null`.
- `JsValues`: the JavaScript semantics the page relies on. A number is NaN or an integer, and
  truthiness follows ToBoolean. The module covers `Number(text)`, `parseInt(text)`, and
  `split(":")` together with its inverse, `join`.
- `JsDate`: a `Date` as a class with mutable local-time fields and a validity flag. Its
  `setHours`, `setMinutes` and `setSeconds` methods are proved against pure functions of the
  old value.
- `TimeOfDay`: the split-and-`Number` reading of a time input's text, and `MergeTime`, the
  value a Date has after a time handler has run on it.
- `Collection`: the page's entities. These are the account, the wallet, the files, the upload
  result, the argument object of `createCollection`, the outcomes of the three external calls,
  the calls the handler makes (`Effect`), and `PageView`, a snapshot of the page state.
- `Gating`: the Create-button, warning, folder-input and form-input conditions.
- `SubmissionFlow`: `CreateFlow`, the submission handler as a specification. It is the
  sequence of calls the handler makes for a given page state and given outcomes of upload,
  sign-and-submit and wait, built as try block, then catch alert, then finally. The lemmas
  about the flow are in this module too.
- `CreateCollectionPage`: the page as a class. Its fields are the React state, and its
  methods are the handlers. `OnCreateCollection` is written step by step with its guards,
  steps, catch and finally, and it is proved to make exactly the calls `CreateFlow` lists.

The external calls (`uploadCollectionData`, `signAndSubmitTransaction`, `waitForTransaction`)
are parameters. Each one is an outcome that either succeeds with a value or throws an error.
`navigate` and `alert` are recorded as effects. The creator address (`CREATOR_ADDRESS`) is a
constructor argument of the page.

The model follows the code as written, including these behaviours:

- The "Uploading in progress" rejection still passes through `finally` and clears the busy
  flag (`SubmissionFlow.BusyRejectionClearsFlag`).
- A commit whose `success` is false produces neither navigation nor an alert.
- The `!files` guard rejects only a missing FileList. An empty FileList passes it, while the
  Create button stays disabled for it.
- The Create button does not test the creator account. An enabled button can therefore still
  be rejected with "Wrong account" (`SubmissionFlow.EnabledButtonGuards`).
- The time merge zeroes the seconds and keeps the milliseconds.
- Clearing a time input (the empty text) makes `minutes` undefined. The selected date then
  becomes an Invalid Date (`TimeOfDay.MergeClearedTime`).
- No check that the start comes before the end, that numbers are non-negative, or that the
  royalty is within range exists in the code, and none is added here.

## Model

| member | source | states |
|---|---|---|
| JsValues.NumberOf | frontend/pages/CreateCollection.tsx:54 | `Number` of a piece of the time text is an integer exactly when the piece is all decimal digits; that integer is non-negative, and the empty piece reads as 0 |
| JsValues.Split | frontend/pages/CreateCollection.tsx:54 | `split(":")` gives at least one piece, no piece contains the separator, and joining the pieces with it gives the text back |
| JsValues.Join | frontend/pages/CreateCollection.tsx:54 | `join(sep)`, the inverse of `split(sep)` that states what the pieces are: the first piece is a prefix of the result, followed by the separator when more pieces follow, and the result is longer than the first piece by at least one character per further piece |
| JsValues.SplitJoin | frontend/pages/CreateCollection.tsx:54 | splitting the join of separator-free pieces gives exactly those pieces (split and join are inverses) |
| JsValues.TrimStart | frontend/pages/CreateCollection.tsx:236 | the white-space skipping of `parseInt` removes exactly the leading white space and returns a suffix of the input |
| JsValues.DigitPrefix | frontend/pages/CreateCollection.tsx:236 | `parseInt` reads the longest prefix of digits of its radix: a prefix, all digits, followed by a non-digit or the end |
| JsValues.ParseInt | frontend/pages/CreateCollection.tsx:236 | `parseInt` of text that is empty after its leading white space is NaN, and a negative result needs a minus sign as the first character after that white space |
| JsValues.ParseUnsigned | frontend/pages/CreateCollection.tsx:236 | the digits after the sign read as a non-negative number, and no text at all reads as NaN |
| JsValues.ParseIntOfDigits | frontend/pages/CreateCollection.tsx:236 | `parseInt` of a non-empty string of decimal digits is the decimal value of those digits |
| JsValues.ParseIntDecimal | frontend/pages/CreateCollection.tsx:236 | `parseInt` of the decimal spelling of any natural number n is n |
| JsValues.ParseIntNoDigits | frontend/pages/CreateCollection.tsx:236 | `parseInt` of text that is empty or starts with a character that is not a digit, a sign or white space is NaN |
| JsValues.DecimalStringValue | frontend/pages/CreateCollection.tsx:236 | the decimal spelling of n is made of digits whose value is n |
| JsDate.WithHours | frontend/pages/CreateCollection.tsx:56 | the value after `setHours`: valid exactly when the date was valid and the hour is a number, with that hour |
| JsDate.WithMinutes | frontend/pages/CreateCollection.tsx:57 | the value after `setMinutes`: valid exactly when the date was valid and the minute is a number, with that minute |
| JsDate.WithSeconds | frontend/pages/CreateCollection.tsx:58 | the value after `setSeconds`: valid exactly when the date was valid and the second is a number, with that second |
| JsDate.Date.SetHours | frontend/pages/CreateCollection.tsx:56 | `setHours` changes only the hours of a valid date, makes it invalid on NaN, and leaves an invalid date invalid |
| JsDate.Date.SetMinutes | frontend/pages/CreateCollection.tsx:57 | `setMinutes` changes only the minutes of a valid date, makes it invalid on NaN, and leaves an invalid date invalid |
| JsDate.Date.SetSeconds | frontend/pages/CreateCollection.tsx:58 | `setSeconds` changes only the seconds of a valid date, makes it invalid on NaN, and leaves an invalid date invalid |
| TimeOfDay.TimeParts | frontend/pages/CreateCollection.tsx:54 | `timeValue.split(":").map(Number)` destructured into hours and minutes; text without a colon gives `Number` of the whole text as hours and an undefined (NaN) minute |
| TimeOfDay.TimeInputParts | frontend/pages/CreateCollection.tsx:54 | every text a time input reports gives hours and minutes that the date setters accept: "" gives 0 and an undefined (NaN) minute, "HH:MM" gives the two numbers it shows |
| TimeOfDay.FormatTimeParts | frontend/pages/CreateCollection.tsx:54 | reading the "HH:MM" text of an hour and a minute gives back that hour and that minute |
| TimeOfDay.TimeInputFormatted | frontend/pages/CreateCollection.tsx:51 | every non-empty time-input text is the "HH:MM" spelling of the hour and minute it holds |
| TimeOfDay.MergeTime | frontend/pages/CreateCollection.tsx:54-58 | the value the selected Date has after the three setter calls: valid exactly when the date was valid and the time text is not empty; a valid result keeps year, month, day and milliseconds and has 0 seconds |
| TimeOfDay.MergeTimeFields | frontend/pages/CreateCollection.tsx:54-58 | on a valid date and "HH:MM", year, month, day and milliseconds are kept, hours and minutes are the entered ones, and seconds are 0 |
| TimeOfDay.MergeClearedTime | frontend/pages/CreateCollection.tsx:54-58 | merging the empty text turns any date into an Invalid Date |
| TimeOfDay.MergeInvalid | frontend/pages/CreateCollection.tsx:56-58 | an Invalid Date stays invalid whatever time is entered |
| TimeOfDay.MergeTimeLastWins | frontend/pages/CreateCollection.tsx:50-60 | after a complete time has been merged, merging another time gives the same date as merging only the second |
| TimeOfDay.MergeTimeIdempotent | frontend/pages/CreateCollection.tsx:50-60 | entering the same time twice leaves the date as after the first time |
| Collection.InitialView | frontend/pages/CreateCollection.tsx:33-44 | the state of the `useState` hooks on mount: nothing entered, no dates, mint limit 1, no FileList, not uploading; it has no contract of its own, and `Gating.InitialMintLimit` states its consequences |
| Gating.CreateButtonDisabled | frontend/pages/CreateCollection.tsx:275-282 | the Create button's `disabled` expression itself, with the account test twice as written; `Gating.CreateButtonEnabled` states when it is false |
| Gating.AccountWarning | frontend/pages/CreateCollection.tsx:135-136 | the account warning and its title: no warning exactly when the connected account is the creator's |
| Gating.WalletNotSupported | frontend/pages/CreateCollection.tsx:144 | the `wallet && isAptosConnectWallet(wallet)` condition of the "Wallet Not Supported" warning, the source expression itself |
| Gating.UploadInputDisabled | frontend/pages/CreateCollection.tsx:173 | the folder input's `disabled` expression itself; `Gating.UnsupportedWalletCannotUpload` states its consequence for unsupported wallets |
| Gating.FormInputsDisabled | frontend/pages/CreateCollection.tsx:207 | the expression "uploading, or no account connected" shared by the date, time and number inputs (lines 207, 219, 234, 244, 254, 265): whenever it holds, the Create button and the folder input are disabled too |
| Gating.AccountWarningShown | frontend/pages/CreateCollection.tsx:135-136 | the account warning is shown exactly when the account is missing or not the creator's; its title is "No Wallet Connected" exactly when no account is connected and "Incorrect Account" exactly for another account |
| Gating.CreateButtonEnabled | frontend/pages/CreateCollection.tsx:275-282 | the Create button is enabled exactly when an account is connected, a non-empty FileList is selected, a start date is chosen, the mint limit is a non-zero number (neither 0 nor NaN) and no upload is running |
| Gating.MintLimitTyped | frontend/pages/CreateCollection.tsx:236 | a typed whole number n as mint limit meets the button's mint-limit condition exactly when n is not 0 |
| Gating.MintLimitCleared | frontend/pages/CreateCollection.tsx:279 | an emptied mint-limit field (parseInt gives NaN) disables the Create button |
| Gating.InitialMintLimit | frontend/pages/CreateCollection.tsx:39 | the mint limit starts at 1, which meets the button's mint-limit condition, and a freshly mounted page has its button disabled |
| Gating.BusyDisablesEverything | frontend/pages/CreateCollection.tsx:275-282 | while uploading, the Create button, the folder input and the form inputs are all disabled |
| Gating.UnsupportedWalletCannotUpload | frontend/pages/CreateCollection.tsx:173 | with an Aptos Connect wallet the folder input is disabled |
| Collection.AlertText | frontend/pages/CreateCollection.tsx:123 | the text `alert(error)` shows: "Error: " and the message for a guard's Error, the error's own text for an external failure |
| SubmissionFlow.FirstFailedGuard | frontend/pages/CreateCollection.tsx:78-81 | the guard whose Error is thrown: a reported guard really fails, and none is reported exactly when an account is connected, a FileList is selected, the account is the creator's and no upload runs |
| SubmissionFlow.GuardPrecedence | frontend/pages/CreateCollection.tsx:78-81 | the reported guard is the first in the order no wallet, no files, wrong account, uploading in progress whose check fails, and none is reported exactly when all pass |
| SubmissionFlow.BuildArgs | frontend/pages/CreateCollection.tsx:94-110 | the argument object literal handed to `createCollection`, the source expression itself; `SubmissionFlow.PayloadFields` states its fields in the signed call |
| SubmissionFlow.TryBlock | frontend/pages/CreateCollection.tsx:77-121 | the calls of the try block and the error it ends with: it ends without error exactly when every guard passes and upload, sign-and-submit and wait all return; a rejected guard calls nothing; at most five calls |
| SubmissionFlow.CreateFlow | frontend/pages/CreateCollection.tsx:76-127 | the whole handler as a list of calls: try block, alert of the catch block, `setIsUploading(false)` of the finally block; it has two to seven calls and the last one clears the busy flag |
| SubmissionFlow.FlowExits | frontend/pages/CreateCollection.tsx:76-127 | every exit ends by clearing the busy flag, which is set only as the first call; a failed guard yields only its alert and the clearing; otherwise the flag is set and then the selected files are uploaded; navigation happens exactly when all steps succeed and the commit reports success |
| SubmissionFlow.StepsInOrder | frontend/pages/CreateCollection.tsx:84-116 | upload happens exactly when the guards pass, sign-and-submit exactly when the upload also succeeded, wait exactly when the submission also succeeded, at most once each and in that order |
| SubmissionFlow.PayloadFields | frontend/pages/CreateCollection.tsx:94-110 | the signed arguments carry name, description, project URI and max supply from the upload result, the entered fields unchanged, and all five allow-list fields undefined |
| SubmissionFlow.WaitUsesSubmittedHash | frontend/pages/CreateCollection.tsx:114-116 | the wait is for exactly the hash that sign-and-submit returned |
| SubmissionFlow.AlertsAndNavigation | frontend/pages/CreateCollection.tsx:119-123 | at most one alert, raised exactly when the try block threw and showing that error's text; never both an alert and navigation; a commit reporting failure yields neither |
| SubmissionFlow.ThrownIsFirstFailure | frontend/pages/CreateCollection.tsx:77-123 | the error caught is the failed guard's, else the upload's, else the submission's, else the wait's, and none when all succeed |
| SubmissionFlow.SuccessfulFlow | frontend/pages/CreateCollection.tsx:84-126 | the fully successful run makes exactly the calls: set busy, upload, sign-and-submit, wait, navigate, clear busy |
| SubmissionFlow.GuardAlertsDistinct | frontend/pages/CreateCollection.tsx:78-81 | the four guard Errors alert four different texts, so the alert shows which check failed |
| SubmissionFlow.BusyRejectionClearsFlag | frontend/pages/CreateCollection.tsx:81-126 | a click by the creator with files while uploading is alerted "Error: Uploading in progress" and still clears the busy flag |
| SubmissionFlow.EnabledButtonGuards | frontend/pages/CreateCollection.tsx:275-282 | when the Create button is enabled, the guards pass exactly for the creator account, and the only possible rejection is "Wrong account", with the account warning shown |
| SubmissionFlow.AccountGuardsMatchWarning | frontend/pages/CreateCollection.tsx:135-136 | the no-wallet and wrong-account rejections happen only when the account warning is shown, and with files selected a shown warning means one of them rejects the click |
| CreateCollectionPage.MergeTimeInto | frontend/pages/CreateCollection.tsx:54-58 | the in-place date update leaves the Date with the value MergeTime gives |
| CreateCollectionPage.Page.constructor | frontend/pages/CreateCollection.tsx:33-44 | a mounted page has nothing entered, no dates, mint limit 1, no files, and is not uploading |
| CreateCollectionPage.Page.WalletChanged | frontend/pages/CreateCollection.tsx:26 | a render picks up the account and wallet the wallet hook reports |
| CreateCollectionPage.Page.OnStartDateChange | frontend/pages/CreateCollection.tsx:209 | the start date picker stores the chosen Date object |
| CreateCollectionPage.Page.OnEndDateChange | frontend/pages/CreateCollection.tsx:221 | the end date picker stores the chosen Date object |
| CreateCollectionPage.Page.OnPublicMintStartTime | frontend/pages/CreateCollection.tsx:50-60 | the start time text is stored; the selected start Date, if any, becomes MergeTime of its old value, still the same object; a distinct end Date is untouched |
| CreateCollectionPage.Page.OnPublicMintEndTime | frontend/pages/CreateCollection.tsx:63-73 | the end time text is stored; the selected end Date, if any, becomes MergeTime of its old value, still the same object; a distinct start Date is untouched |
| CreateCollectionPage.Page.OnMintLimitInput | frontend/pages/CreateCollection.tsx:235-237 | the mint limit becomes parseInt of the typed text, and nothing else changes |
| CreateCollectionPage.Page.OnRoyaltyInput | frontend/pages/CreateCollection.tsx:245-247 | the royalty becomes parseInt of the typed text, and nothing else changes |
| CreateCollectionPage.Page.OnMintFeeInput | frontend/pages/CreateCollection.tsx:255-257 | the mint fee becomes the typed text's number, and nothing else changes |
| CreateCollectionPage.Page.OnPreMintInput | frontend/pages/CreateCollection.tsx:266-268 | the pre-mint amount becomes parseInt of the typed text, and nothing else changes |
| CreateCollectionPage.Page.OnFilesSelected | frontend/pages/CreateCollection.tsx:178-180 | the folder input stores the FileList it reports |
| CreateCollectionPage.Page.OnClearFiles | frontend/pages/CreateCollection.tsx:189-192 | the Clear link drops the selection |
| CreateCollectionPage.Page.SetBusy | frontend/pages/CreateCollection.tsx:84 | `setIsUploading` sets the flag and is recorded as a call |
| CreateCollectionPage.Page.RunSteps | frontend/pages/CreateCollection.tsx:84-121 | after the guards, the steps leave the flag set and make exactly the calls of the try block, stopping at the first error |
| CreateCollectionPage.Page.OnCreateCollection | frontend/pages/CreateCollection.tsx:76-127 | the handler makes exactly the calls CreateFlow lists for the page state it started from, ends with the busy flag cleared, and changes no other state |
| CreateCollectionPage.CreatorPicksDate | frontend/pages/CreateCollection.tsx:209 | the creator connects, selects a folder and picks a start date: the page holds that date, the files and the initial mint limit, with no call made yet |
| CreateCollectionPage.CreatorFillsForm | frontend/pages/CreateCollection.tsx:50-60 | after the date, the creator sets the time to any h:m: the page holds MergeTime of the picked date and that time text |
| CreateCollectionPage.CreatorCreatesCollection | frontend/pages/CreateCollection.tsx:76-127 | the creator with a folder, a start date set to any time h:m and the initial mint limit, with every external call succeeding, gets navigation, a payload with the upload's max supply, the start date merged with h:m (for a valid date: its day at h:m:00 with its milliseconds) and limit 1, a wait on the returned hash, and a cleared busy flag |
| CreateCollectionPage.OtherAccountClicks | frontend/pages/CreateCollection.tsx:80 | a connected account other than the creator's with files selected is alerted "Error: Wrong account" and the busy flag is cleared, with nothing uploaded |

## Left out

- `uploadCollectionData`, `createCollection` and `aptosClient` are not part of this model.
  Their results are outcomes passed in as parameters: a value, or a thrown error. An error
  thrown while `createCollection` builds the payload counts as a failed sign-and-submit. Irys
  funding and signature sub-cases are not distinguished.
- The network, wallet and chain I/O, and the `async` suspension itself, are left out. The
  handler is one sequential method. A second click that arrives while the first is suspended
  is covered only as a page state whose busy flag is already set.
- React's state mechanics (render closures, batching, re-rendering) are left out. Fields are
  read and written directly, which agrees with the code for one sequential run.
- `alert` shows `String(error)`. For a guard's Error that is "Error: " and its message
  (`Collection.AlertText`); the text of an external call's error is taken as given, since those
  errors come from code outside this model.
- JsValues.NumberOf: only the empty string and strings of decimal digits become numbers. Text
  with white space, a sign, a decimal point, an exponent, a `0x`/`0o`/`0b` prefix or
  `Infinity` is NaN here, though JavaScript reads it as a number. A time input never
  produces such text.
- JsValues.ParseInt: integers are exact. JavaScript loses precision beyond 2^53, and `-0` is
  read as 0 (both are falsy).
- JsDate.Date.SetHours, JsDate.Date.SetMinutes, JsDate.Date.SetSeconds: these accept only NaN
  or an in-range value. A value out of range would carry into the other fields, and that
  carry is not modelled, nor are time zones.
- CreateCollectionPage.Page.OnPublicMintStartTime, CreateCollectionPage.Page.OnPublicMintEndTime:
  these require the text a time input reports, either empty or "HH:MM" in range. Texts with
  seconds ("HH:MM:SS") are not modelled.
- CreateCollectionPage.Page.OnClearFiles: the Clear link also empties the DOM file input
  (`inputRef.current!.value = ""`, line 191). The DOM element is not part of this model, so only
  the `files` state is reset.
- The mint fee goes through `Number(...)`, a floating-point conversion. It is kept as the typed
  text (`Collection.Fee`) and passed through unevaluated.
- Nothing is modelled for the `IS_PROD` redirect, the rendering, the upload spinner, the
  "Select Folder"/"files selected" labels, or the landing, collection-list, mint and routing
  pages and the static configuration. They hold no logic the core depends on.
