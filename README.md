# Norsa point-of-sale logic in Dafny

Norsa is a React Native point-of-sale app. A merchant logs in, reads a
customer's NFC card, records expenses against the card's balance, and
prints receipts on a thermal printer. The printer takes text in a
bracket-tag markup (`[L]`, `[C]`, `[R]`, `<font size='tall'>`, …). This
project models the app's deterministic part and proves what it promises:

- **Receipt texts** (`ReceiptPrinter`): the sale/return receipt, the
  balance receipt and the daily report. Each text is a list of markup lines
  joined with `\n`. The daily report sorts the caller's array of
  transactions in place by time, prints one line per transaction and prints
  a signed total.
- **Expense screen** (`PrintExpense`): the ordered amount checks against
  the card's balance and the PIN gate. The merchant copy posts one
  transaction to the backend; after it, the client copy reprints without a
  backend call.
- **Item list** (`AddItems`): items are added under a balance of 1000,
  deleted by position, and printed.
- **Printer settings screen** (`PrinterConfigScreen`): validates, saves,
  loads and resets the three printer settings, and prints a test text.
- **Login screen** (`Login`):
  - the login checks, in order;
  - the rule by which a typed setting overrides the default printer
    configuration for a test print;
  - clearing the settings.
- **Input checks** (`Utils`): the app's regular expressions are restated as
  predicates over strings. Also here: the default printer configuration, the
  notices the screens show, and printer outcomes.
- **Persistence** (`LocalStorage`): AsyncStorage is a class holding a map
  from the app's four keys to stored values. The model covers its getters,
  their fallbacks to defaults, the JSON round trip of the configuration, and
  clearing all keys.
- **NFC** (`NfcReaderWriter`):
  - the classification of a tag's first record;
  - the read session, a state machine driven by the events DiscoverTag and
    SessionClosed that resolves at most once;
  - the outcome of a write.

Two modules support the rest:

- `Text` defines the ECMAScript white space and line terminators, `trim`,
  and joining and splitting lines.
- `Numbers` defines JavaScript numbers as `NaN | Infinity | Finite(real)`.
  It also defines `parseFloat` (longest decimal prefix, optional sign,
  leading white space skipped) and the comparisons `<`, `<=`, `===` and `+`
  with their NaN rules.

The following are parameters:

- receipt numbers (`Math.random`);
- dates (`moment`);
- the rendering of numbers (`show: Num -> string`);
- the outcome of the backend, the printer, the NFC radio and AsyncStorage.

A screen is a class whose fields are its state variables. The alerts it
shows, the transactions it posts and the texts it prints are sequence
fields that its handlers extend.

## Model

| member | source | states |
|---|---|---|
| Text.Trim | src/screens/PrintExpense.tsx:106 | `trim` removes only a white-space prefix and a white-space suffix, so a non-empty result starts and ends with a non-space character |
| Text.TrimEmptyIffAllSpace | src/screens/AddItems.tsx:67-70 | a trimmed input is empty exactly when the input is all white space or line terminators |
| Text.TrimIdempotent | src/screens/Login.tsx:46-47 | trimming twice is trimming once |
| Text.SplitJoinLines | src/core/ReceiptPrinter.ts:11-39 | lines without `\n`, joined with `\n`, split back into exactly those lines: the lines of a receipt are recoverable from its text |
| Text.JoinLinesAppend | src/core/ReceiptPrinter.ts:73-97 | joining two non-empty blocks of lines is joining each and putting one `\n` between them |
| Numbers.ParseFloat | src/screens/PrintExpense.tsx:121 | JavaScript `parseFloat`: leading white space skipped, an optional sign, then the longest decimal or `Infinity` prefix, NaN when there is none. Its lemmas below characterise it case by case |
| Numbers.LessThan | src/screens/PrintExpense.tsx:128 | JavaScript `<` on numbers: false whenever either side is NaN, otherwise the order of the extended reals |
| Numbers.LessOrEqual | src/screens/PrintExpense.tsx:123 | JavaScript `<=`: false whenever either side is NaN |
| Numbers.Add | src/screens/AddItems.tsx:80 | JavaScript `+` on numbers: NaN if either side is NaN or the infinities have opposite signs |
| Numbers.ParseFloatUnsigned | src/screens/PrintExpense.tsx:121 | `parseFloat` of a string not starting with white space or a sign reads the unsigned literal at its start, or gives NaN when there is none |
| Numbers.ParseFloatOfDigits | src/screens/PrintExpense.tsx:121 | `parseFloat` of a digit string is its decimal value |
| Numbers.ParseFloatOfDecimal | src/screens/PrintExpense.tsx:121 | `parseFloat("d1.d2")` is the value of the digits with the fraction |
| Numbers.ParseFloatLeadingDot | src/screens/PrintExpense.tsx:121 | `parseFloat(".d")` is the fraction the digits denote |
| Numbers.ParseFloatNoLeadingSpace | src/screens/PrintExpense.tsx:121 | without leading white space, `parseFloat` reads the signed literal at position 0 |
| Numbers.ParseFloatSigned | src/screens/PrintExpense.tsx:121 | `parseFloat("+d")` is the value of `d` and `parseFloat("-d")` its negation |
| Numbers.ParseFloatSkipsSpace | src/screens/PrintExpense.tsx:121 | a leading white-space character does not change what `parseFloat` reads |
| Numbers.ParseFloatSpaceThenDigits | src/screens/PrintExpense.tsx:121 | a white-space character followed by digits parses to the value of the digits |
| Numbers.ParseFloatNoNumber | src/screens/PrintExpense.tsx:121 | a character that cannot start a number, followed by digits, parses to NaN |
| Utils.IsValidFloatNumber | src/utils/index.ts:31-32 | the language of the float pattern: either `\d+(\.\d+)?` or `.?\d+` over the whole string, with `.` any character but a line terminator; characterised by `FloatNumberExamples` and `ValidFloatParse` |
| Utils.IsValidIntNumber | src/utils/index.ts:37-38 | the language of `/^[0-9]+$/`: non-empty digit strings; `IntIsFloat` relates it to the float pattern |
| Utils.IsValidAmount | src/utils/index.ts:34-35 | the language of `/^[0-9]*.?[0-9]{1,2}$/`; characterised by `AmountExamples` and `AmountShape` |
| Utils.IsEmailValid | src/utils/index.ts:40-41 | the language of the email pattern: a dotted-atom or quoted local part, `@`, a domain; characterised by `EmailDomainShape` and `EmailExamples` |
| Utils.IntIsFloat | src/utils/index.ts:5-7 | every string the integer pattern accepts is accepted by the float pattern |
| Utils.FloatNumberExamples | src/utils/index.ts:5 | because its `.` is unescaped, the float pattern accepts `.5`, `-5` and `x5`; it refuses the empty string and `1.` |
| Utils.ValidFloatParse | src/utils/index.ts:31-32 | with numbers as exact reals, `parseFloat` of an accepted float string is never infinite. It is NaN exactly when the first character cannot start a number, and otherwise a value that is negative only after a leading `-` |
| Utils.DecimalParse | src/utils/index.ts:5 | the same for the `\d+\.\d+` alternative, given where its dot is |
| Utils.DigitsDotDigitsParse | src/utils/index.ts:5 | the same for digits, a dot and digits |
| Utils.OneCharThenDigitsParse | src/utils/index.ts:5 | the same for the `.?\d+` alternative with a first character before the digits |
| Utils.CharThenDigitsParse | src/utils/index.ts:5 | the same for one non-terminator character followed by digits |
| Utils.AmountExamples | src/utils/index.ts:6 | the amount pattern accepts `12.34` and refuses `12.345` |
| Utils.AmountShape | src/utils/index.ts:34-35 | an accepted amount ends in a digit. It is all digits, or has exactly one non-digit, one to three places from the end, with only digits on both sides |
| Utils.DomainShape | src/utils/index.ts:9 | an accepted domain has at least 4 characters. It holds only atom characters and dots, does not start with a dot, ends with two non-dots, has a dot before those, and never has two dots in a row, so every label is non-empty |
| Utils.EmailDomainShape | src/utils/index.ts:40-41 | an accepted email has an `@` after which such a domain runs to the end: atom characters and dots only, non-empty labels, a dot, and a final label of two or more characters |
| Utils.EmailExamples | src/utils/index.ts:8-9 | `a@b.co` is accepted; `a@b.c` is refused because the last label needs two characters |
| Utils.ErrorText | src/screens/AddItems.tsx:121 | the alert text is the error's message, or `Something went wrong` when the message is empty; it is never empty |
| ReceiptPrinter.ReceiptText | src/core/ReceiptPrinter.ts:5-44 | the `printReceipt` text; `ReceiptTextLines` gives it line by line |
| ReceiptPrinter.BalanceText | src/core/ReceiptPrinter.ts:104-140 | the `printBalance` text; `BalanceTextLines` gives it line by line |
| ReceiptPrinter.DailyReceiptText | src/core/ReceiptPrinter.ts:73-97 | the `printDailyReceipt` text for already sorted transactions; `DailyReceiptTextLines` gives it line by line |
| ReceiptPrinter.SortByTime | src/core/ReceiptPrinter.ts:50-54 | the stable sort by `dateTime`; `SortByTimeSorted` and `SortByTimePermutes` state that it orders and permutes |
| ReceiptPrinter.ListOfExpenses | src/core/ReceiptPrinter.ts:55-62 | the `reduce` building one line per transaction; `ListOfExpensesJoin` relates it to the joined lines |
| ReceiptPrinter.DailyTotal | src/core/ReceiptPrinter.ts:63-71 | the `reduce` adding expenses and subtracting everything else; `DailyTotalIsDifference` and `DailyTotalPermutation` characterise it |
| ReceiptPrinter.Repeat | src/core/ReceiptPrinter.ts:17 | a divider is exactly `n` copies of one character |
| ReceiptPrinter.ReceiptTextLines | src/core/ReceiptPrinter.ts:5-44 | the receipt text splits into 26 lines: the 7 header lines with the given receipt number and date, then the amount line, then the merchant, customer name and customer code lines in that order, then the signature block |
| ReceiptPrinter.HeaderSingleLine | src/core/ReceiptPrinter.ts:12-18 | with a single-line receipt number and date, every header line is one printer line |
| ReceiptPrinter.PartySingleLine | src/core/ReceiptPrinter.ts:25-29 | with single-line names and code, the merchant and customer block is one printer line per field |
| ReceiptPrinter.SignatureSingleLine | src/core/ReceiptPrinter.ts:30-39 | the signature and closing lines are single lines |
| ReceiptPrinter.LabelledAmountSingleLine | src/core/ReceiptPrinter.ts:19-21 | an amount line with a single-line label and amount is one line |
| ReceiptPrinter.BalanceTextLines | src/core/ReceiptPrinter.ts:104-140 | the balance text splits into 26 lines. Line 8 is `[L]Balance :[R]NAFL` followed by the balance, and the merchant/customer block and the signature block match the sale receipt |
| ReceiptPrinter.SortByTimeInPlace | src/core/ReceiptPrinter.ts:50-54 | sorting in place leaves in the array the stable ascending-time order of its old contents |
| ReceiptPrinter.InsertInPlace | src/core/ReceiptPrinter.ts:50-54 | one insertion step places element `i` among the sorted prefix and leaves the rest of the array unchanged |
| ReceiptPrinter.InsertAt | src/core/ReceiptPrinter.ts:50-54 | inserting by time puts the element after every one not later than it and before every later one |
| ReceiptPrinter.InsertPermutes | src/core/ReceiptPrinter.ts:50-54 | an insertion adds exactly the inserted element to the multiset |
| ReceiptPrinter.InsertSorted | src/core/ReceiptPrinter.ts:50-54 | inserting into a time-ordered list keeps it ordered |
| ReceiptPrinter.SortByTimeSorted | src/core/ReceiptPrinter.ts:50-54 | the sort's result is in ascending time |
| ReceiptPrinter.SortByTimePermutes | src/core/ReceiptPrinter.ts:50-54 | the sort's result is a permutation of its input |
| ReceiptPrinter.PrintDailyReceipt | src/core/ReceiptPrinter.ts:46-102 | the caller's array ends up sorted by time and is a permutation of what it held. The text is the daily report of the sorted array |
| ReceiptPrinter.ExpenseLines | src/core/ReceiptPrinter.ts:55-62 | there is one line per transaction |
| ReceiptPrinter.ExpenseLinesAt | src/core/ReceiptPrinter.ts:55-62 | line `i` of the list is the line of transaction `i`: the lines follow the array's order |
| ReceiptPrinter.ExpenseLineSign | src/core/ReceiptPrinter.ts:58-60 | a list line is `[L]id: [R]NAFL `, then `-` exactly for a return and a space otherwise, then the amount |
| ReceiptPrinter.ExpenseLineSingleLine | src/core/ReceiptPrinter.ts:58-60 | a list line with a single-line client id and amount is one line |
| ReceiptPrinter.ExpenseLinesSingleLine | src/core/ReceiptPrinter.ts:55-62 | the whole list is single lines when the ids are |
| ReceiptPrinter.ListOfExpensesJoin | src/core/ReceiptPrinter.ts:55-62 | the `reduce` that appends `line\n` per transaction equals joining the list lines in front of what follows |
| ReceiptPrinter.ListBetweenBlocks | src/core/ReceiptPrinter.ts:73-97 | the folded list placed between header and tail is the join of header, list lines and tail |
| ReceiptPrinter.DailyReceiptTextIsJoin | src/core/ReceiptPrinter.ts:73-97 | the daily text is the header lines, one line per transaction and the tail lines, joined with `\n` |
| ReceiptPrinter.TailSingleLine | src/core/ReceiptPrinter.ts:82-97 | the tail of the daily report is single lines |
| ReceiptPrinter.DailyReceiptTextLines | src/core/ReceiptPrinter.ts:46-102 | the daily text splits into 7 + n + 16 lines. The header comes first, then the n transaction lines in order, then the tail. The 4th tail line is the total and the 6th the merchant name |
| ReceiptPrinter.EmptyDailyReceipt | src/core/ReceiptPrinter.ts:55-71 | with no transactions the list section is `''`, the total is 0, and the text is header and tail joined |
| ReceiptPrinter.DailyTotalIsDifference | src/core/ReceiptPrinter.ts:63-71 | the total is the sum of expense amounts minus the sum of all other amounts |
| ReceiptPrinter.SumsOfAppend | src/core/ReceiptPrinter.ts:63-71 | appending a transaction adds its amount to exactly one of the two sums |
| ReceiptPrinter.DailyTotalRemove | src/core/ReceiptPrinter.ts:63-71 | the total is the signed amount of any one transaction plus the total of the others |
| ReceiptPrinter.DailyTotalRemoveBoth | src/core/ReceiptPrinter.ts:63-71 | two lists with a common element and equal totals for the rest have equal totals |
| ReceiptPrinter.DailyTotalPermutation | src/core/ReceiptPrinter.ts:63-71 | the total does not depend on the order of the transactions |
| ReceiptPrinter.DailyTotalOfSorted | src/core/ReceiptPrinter.ts:50-71 | the total printed after sorting is the total of the input, the expense sum minus the rest |
| ReceiptPrinter.OtherTypeSignMismatch | src/core/ReceiptPrinter.ts:58-69 | a transaction neither an expense nor a return is printed with a space, like an expense, yet subtracted, like a return |
| LocalStorage.ToJson | src/core/LocalStorageService.ts:31 | `JSON.stringify` keeps a finite number and writes `null` for NaN and the infinities |
| LocalStorage.DecodeConfig | src/core/LocalStorageService.ts:14 | a loaded configuration is usable as numbers exactly when none of its fields is `null` |
| LocalStorage.ConfigRoundTrip | src/core/LocalStorageService.ts:14-31 | stringifying and parsing a configuration gives it back exactly when all three settings are finite |
| LocalStorage.ReadPrinterConfig | src/core/LocalStorageService.ts:6-23 | the stored configuration when the key is present and the read succeeds; the default when the key is absent or the read fails |
| LocalStorage.ReadLoginData | src/core/LocalStorageService.ts:38-54 | the stored login record when present and readable, else null |
| LocalStorage.ReadAuthToken | src/core/LocalStorageService.ts:56-60 | with login data, its access token or `''`; without it, no value (the code dereferences null) |
| LocalStorage.ReadText | src/core/LocalStorageService.ts:85-115 | a date or receipt getter gives the raw stored string, or null when it is absent or the read fails |
| LocalStorage.AsyncStorage.constructor | src/core/LocalStorageService.ts:1 | the storage starts with the given well-formed entries |
| LocalStorage.AsyncStorage.SetPrinterDefaultConfig | src/core/LocalStorageService.ts:25-36 | the configuration is stored under its key as its JSON round trip; a failed write changes nothing |
| LocalStorage.AsyncStorage.SetLoginData | src/core/LocalStorageService.ts:62-73 | the login record is stored under its key; a failed write changes nothing |
| LocalStorage.AsyncStorage.SetDailyReportPrintedDate | src/core/LocalStorageService.ts:75-83 | the raw date string is stored under its key; a failed write changes nothing |
| LocalStorage.AsyncStorage.SetPreviousPrintedReceipt | src/core/LocalStorageService.ts:117-128 | the raw receipt text is stored under its key; a failed write changes nothing |
| LocalStorage.AsyncStorage.ClearLoginData | src/core/LocalStorageService.ts:130-136 | every key is removed, unless the removal fails |
| LocalStorage.SetThenGetPrinterConfig | src/core/LocalStorageService.ts:9-36 | reading after saving a configuration gives the saved configuration's JSON round trip |
| LocalStorage.SetThenGetLoginData | src/core/LocalStorageService.ts:38-73 | reading after saving login data gives the same record, and its token (or `''`) |
| LocalStorage.SetThenGetTexts | src/core/LocalStorageService.ts:75-128 | the date and receipt getters return exactly the string last stored |
| LocalStorage.AfterClear | src/core/LocalStorageService.ts:130-136 | after clearing, login data, token, date and receipt are absent and the configuration is the default |
| LocalStorage.DefaultLoadedValues | src/utils/index.ts:11-15 | the default configuration is dpi 150, width 48 mm and 30 characters per line, and survives the JSON round trip |
| LocalStorage.SetterIsolation | src/core/LocalStorageService.ts:25-128 | writing one key changes no getter of another key |
| NfcReaderWriter.ParseText | src/core/NfcReaderWriter.ts:17-42 | a blank text record fails with `Invalid Nfc Tag…` and empty text. A non-blank one succeeds with the untrimmed text. A thrown error fails with its message or the default. A non-text record gives nothing |
| NfcReaderWriter.ReadResultOf | src/core/NfcReaderWriter.ts:55-68 | the read result keeps the parse's success. On success it carries the text and no error; on failure the error and empty text |
| NfcReaderWriter.NfcManager.constructor | src/core/NfcReaderWriter.ts:4 | no listener, no registration, no technology request, nothing resolved |
| NfcReaderWriter.NfcManager.ReadNfcTag | src/core/NfcReaderWriter.ts:46-84 | both listeners are set, tag discovery is registered, no tag is found yet and nothing is resolved |
| NfcReaderWriter.NfcManager.CleanUpReadingListeners | src/core/NfcReaderWriter.ts:6-10 | both listeners are removed and nothing else changes, so repeating it is harmless |
| NfcReaderWriter.NfcManager.ResolveWith | src/core/NfcReaderWriter.ts:57-67 | the promise takes the value only if it is not yet resolved |
| NfcReaderWriter.NfcManager.OnDiscoverTag | src/core/NfcReaderWriter.ts:50-70 | the DiscoverTag listener performs one step of the read session |
| NfcReaderWriter.NfcManager.OnSessionClosed | src/core/NfcReaderWriter.ts:72-81 | the SessionClosed listener performs one step of the read session |
| NfcReaderWriter.NfcManager.WriteNfcTag | src/core/NfcReaderWriter.ts:86-119 | the result is the write's outcome, and the technology request is cancelled whatever happened |
| NfcReaderWriter.WriteResult | src/core/NfcReaderWriter.ts:97-115 | a write succeeds exactly when it was written. No bytes gives `Unable to write data…`; a thrown error gives its message or the default |
| NfcReaderWriter.Step | src/core/NfcReaderWriter.ts:50-81 | one DiscoverTag or SessionClosed event of the read session; `NfcManager.OnDiscoverTag` and `OnSessionClosed` are proved to perform it |
| NfcReaderWriter.Run | src/core/NfcReaderWriter.ts:47-84 | a sequence of events in turn; the session lemmas below are about it |
| NfcReaderWriter.RunAppend | src/core/NfcReaderWriter.ts:47-81 | running two event sequences one after the other is running their concatenation |
| NfcReaderWriter.ResolvedStays | src/core/NfcReaderWriter.ts:47-81 | once resolved, no later events change the result |
| NfcReaderWriter.TagFoundStays | src/core/NfcReaderWriter.ts:51-74 | once a tag has been seen, it stays seen |
| NfcReaderWriter.ResolvesOnce | src/core/NfcReaderWriter.ts:47-81 | the read resolves at most once: a prefix that resolved fixes the final result |
| NfcReaderWriter.NonTextTagsKeepListening | src/core/NfcReaderWriter.ts:50-70 | tags whose first record is not text keep both listeners and the registration and resolve nothing |
| NfcReaderWriter.FirstTagDecides | src/core/NfcReaderWriter.ts:50-68 | after any number of non-text tags, the first tag with a parse result resolves the read with that result, whatever follows |
| NfcReaderWriter.TagDecides | src/core/NfcReaderWriter.ts:50-68 | a tag with a parse result, heard while the read is unresolved, resolves it with that result, whatever follows |
| NfcReaderWriter.ClosedBeforeTag | src/core/NfcReaderWriter.ts:72-81 | SessionClosed before any tag resolves `Unable to find any Nfc Tag nearby…`, whatever follows |
| NfcReaderWriter.ClosedIgnoresTags | src/core/NfcReaderWriter.ts:72-81 | after SessionClosed the listeners are gone and a later tag changes nothing |
| NfcReaderWriter.NonTextTagHangs | src/core/NfcReaderWriter.ts:17-81 | a non-text first tag resolves nothing, and later SessionClosed events resolve nothing either: the read never completes |
| NfcReaderWriter.Closes | src/core/NfcReaderWriter.ts:72 | `n` SessionClosed events |
| NfcReaderWriter.ClosesResolveNothing | src/core/NfcReaderWriter.ts:72-81 | once a tag has been seen, closing the session any number of times resolves nothing |
| PrintExpense.CheckExpenseAmount | src/screens/PrintExpense.tsx:106-134 | the checks of `onSaveAndPrintReceiptPressed` on the raw amount; `CheckOrder` states their order and outcome |
| PrintExpense.CheckAmount | src/screens/PrintExpense.tsx:108-134 | the same checks on the trimmed input and its parsed value |
| PrintExpense.CheckOrder | src/screens/PrintExpense.tsx:106-134 | the checks run in order: empty, not a float string, at most 0, over the balance. A check's alert is given only when the earlier checks passed. An amount passing all four is the parsed trimmed input |
| PrintExpense.AcceptedAmount | src/screens/PrintExpense.tsx:121-134 | with numbers as exact reals, an accepted amount is never infinite. A finite one lies in (0, balance]. It is NaN exactly when the trimmed input starts with a character that cannot start a number |
| PrintExpense.BalanceItselfAccepted | src/screens/PrintExpense.tsx:128 | an amount equal to the balance is accepted |
| PrintExpense.CheckPassing | src/screens/PrintExpense.tsx:106-134 | a trimmed float string parsing to a value in (0, balance] passes with that value |
| PrintExpense.TrimOfUnspaced | src/screens/PrintExpense.tsx:106 | a string with non-space ends is its own trim |
| PrintExpense.DigitsTrimmed | src/screens/PrintExpense.tsx:106 | a digit string is its own trim |
| PrintExpense.NaNAmountAccepted | src/screens/PrintExpense.tsx:113-134 | an input like `x5` passes all four checks and yields NaN, since NaN is neither `<= 0` nor `> balance` |
| PrintExpense.PrintExpenseScreen.constructor | src/screens/PrintExpense.tsx:23-37 | the route parameters are kept; every input is empty, every flag false, nothing posted, printed or shown |
| PrintExpense.PrintExpenseScreen.ExpenseTransaction | src/screens/PrintExpense.tsx:68-75 | the transaction posted is an expense of this client for the given price |
| PrintExpense.PrintExpenseScreen.OnExpensePriceTextChanged | src/screens/PrintExpense.tsx:57-62 | only the amount input changes |
| PrintExpense.PrintExpenseScreen.OnPinCodeTextChanged | src/screens/PrintExpense.tsx:233 | only the PIN input changes |
| PrintExpense.PrintExpenseScreen.ClearAllStates | src/screens/PrintExpense.tsx:41-46 | the amount, the merchant-copy flag, the input lock and the loader are reset; the PIN verification stays |
| PrintExpense.PrintExpenseScreen.HideConfirmationModal | src/screens/PrintExpense.tsx:52-55 | the PIN is cleared and the modal hidden; nothing else changes |
| PrintExpense.PrintExpenseScreen.PrintForMerchant | src/screens/PrintExpense.tsx:64-87 | one transaction is posted. If the backend accepts and printing succeeds, the receipt is printed, the merchant-copy flag set, the input stays locked and the loader hides. A backend failure shows its toast, unlocks the input and hides the loader. A printer error escapes with the input locked and the loader shown. Every other flag is unchanged |
| PrintExpense.PrintExpenseScreen.OnSubmitButtonPressed | src/screens/PrintExpense.tsx:89-101 | a wrong PIN shows `Pin Code entered is incorrect` and changes nothing else. A correct PIN sets the verification, clears the PIN, hides the modal and makes the merchant copy for `parseFloat` of the trimmed amount, with the full new state of `printForMerchant` for each outcome; an escaping printer error shows nothing |
| PrintExpense.PrintExpenseScreen.SubmitPin | src/screens/PrintExpense.tsx:90-100 | the same gate and the same new state, for a given price |
| PrintExpense.PrintExpenseScreen.Reprint | src/screens/PrintExpense.tsx:142-157 | the client copy posts nothing. After a successful print it clears the amount, the merchant-copy flag, the lock and the loader and goes back; a printer error shows `Error` with its message, unlocks the input and leaves the loader shown |
| PrintExpense.PrintExpenseScreen.MerchantCopy | src/screens/PrintExpense.tsx:159-163 | the merchant copy posts exactly one transaction, with the full new state of `printForMerchant` for each outcome. A backend failure shows its toast; a printer error is caught by the outer handler as `Error Printing` with its message or `Something went wrong` |
| PrintExpense.PrintExpenseScreen.OnSaveAndPrintReceiptPressed | src/screens/PrintExpense.tsx:103-165 | a failed check only alerts. Before PIN verification a valid amount only opens the modal. After the merchant copy the client copy reprints without posting, with the full new state of the reprint. Otherwise the merchant copy posts once for the checked amount, sets the merchant-copy flag when printed, and alerts as `MerchantCopy` does |
| PrintExpense.PrintExpenseScreen.AfterCheck | src/screens/PrintExpense.tsx:136-164 | the same outcome and new state, once the checks have run |
| AddItems.TotalPrice | src/screens/AddItems.tsx:33-43 | the memoised sum of the list's prices; `TotalPriceAppend` and `TotalPriceWithout` characterise it |
| AddItems.CheckNewItem | src/screens/AddItems.tsx:66-92 | the checks of `onAddItemPressed` on the raw inputs: trim, `parseFloat`, then `CheckItem` |
| AddItems.CheckItem | src/screens/AddItems.tsx:70-92 | the same checks on the trimmed name and parsed price; `CheckItemCases` proves them equal to the source's comparisons in its order |
| AddItems.CheckItemCases | src/screens/AddItems.tsx:66-92 | the checks run in order: empty trimmed name, then a NaN price or one below 1, then a total over the balance. An item passes exactly when the name is non-empty, the price is finite and at least 1, and total + price ≤ balance. A positive infinity is refused by the balance check |
| AddItems.TotalPriceAppend | src/screens/AddItems.tsx:33-43 | appending an item adds its price to the derived total |
| AddItems.WithoutIndex | src/screens/AddItems.tsx:101 | the filter never lengthens the list |
| AddItems.WithoutIndexIsRemoval | src/screens/AddItems.tsx:99-102 | the filter removes exactly the item at the index and keeps the others in order; an index out of range removes nothing |
| AddItems.TotalPriceWithout | src/screens/AddItems.tsx:33-102 | deleting an item takes its price off the total |
| AddItems.WithoutIndexFits | src/screens/AddItems.tsx:99-105 | deleting keeps every price at least 1 and the total within the balance |
| AddItems.TotalZeroIffEmpty | src/screens/AddItems.tsx:33-43 | with every price at least 1, the total is at least the number of items, and 0 exactly for an empty list |
| AddItems.AddItemsScreen.constructor | src/screens/AddItems.tsx:25-31 | the list and inputs are empty, the balance is 1000, and the code is the route's or `12345678` |
| AddItems.AddItemsScreen.OnItemNameTextChanged | src/screens/AddItems.tsx:58-60 | only the name input changes |
| AddItems.AddItemsScreen.OnItemPriceTextChanged | src/screens/AddItems.tsx:62-64 | only the price input changes |
| AddItems.AddItemsScreen.ClearAllStates | src/screens/AddItems.tsx:47-52 | the list and inputs are emptied and the balance reset to 1000 |
| AddItems.AddItemsScreen.OnAddItemPressed | src/screens/AddItems.tsx:66-97 | an item passing the checks is appended as the one new last element and both inputs are cleared. Otherwise its alert is shown and nothing changes. Every price stays at least 1 and the total within the balance |
| AddItems.AddItemsScreen.AddChecked | src/screens/AddItems.tsx:70-96 | the same, once the checks have run |
| AddItems.AddItemsScreen.OnDeleteItemPressed | src/screens/AddItems.tsx:99-105 | the list becomes the filtered list, still within the balance |
| AddItems.AddItemsScreen.OnSaveAndPrintReceiptPressed | src/screens/AddItems.tsx:107-123 | an empty list alerts `No Items` and prints nothing. Otherwise the list goes to the printer; success clears the screen and a printer error shows `Error Printing` |
| TestPrint.AmountText | src/screens/PrinterConfig.tsx:52 | a blank amount prints as `100`, any other as its trimmed text |
| TestPrint.AmountSingleLine | src/screens/PrinterConfig.tsx:52 | a single-line amount input gives a single-line amount text |
| TestPrint.DividersSingleLine | src/screens/PrinterConfig.tsx:81-97 | the 32-wide dividers of the test print are single lines |
| TestPrint.TestConstantsSingleLine | src/screens/PrinterConfig.tsx:87-100 | the fixed merchant, customer and closing lines are single lines |
| TestPrint.TestHeaderSingleLine | src/screens/PrinterConfig.tsx:76-82 | the test header is single lines |
| TestPrint.TestMiddleSingleLine | src/screens/PrinterConfig.tsx:83-86 | the test amount block is single lines |
| TestPrint.TestLinesSplit | src/screens/PrinterConfig.tsx:75-100 | a test text splits back into its lines: header, then the amount line, then the fixed party block, then the closing block |
| TestPrint.ConfigTestTextLines | src/screens/PrinterConfig.tsx:75-100 | the settings screen's test text has 25 lines. Line 8 is the `Sale` amount, and a blank amount prints 100 |
| TestPrint.LoginTestTextLines | src/screens/Login.tsx:103-127 | the login screen's test text has 24 lines. Line 8 is the `Expense` amount, and a blank amount prints 100 |
| PrinterConfigScreen.FieldValid | src/screens/PrinterConfig.tsx:125 | a setting is valid when trimmed it is non-empty, a float string, and does not parse to a number `=== 0`; `ValidFieldParse` characterises what it lets through |
| PrinterConfigScreen.ValidateConfig | src/screens/PrinterConfig.tsx:121-148 | the three setting checks in order with their alerts; `ValidateConfigCases` characterises it |
| PrinterConfigScreen.ValidateConfigCases | src/screens/PrinterConfig.tsx:121-148 | dpi is checked first, then width, then characters per line. Each alert names the first invalid setting. A configuration passes exactly when all three do, and holds the three parsed trimmed inputs, each, with numbers as exact reals, nonzero or NaN |
| PrinterConfigScreen.ValidFieldParse | src/screens/PrinterConfig.tsx:125 | with numbers as exact reals, a setting that passes parses to a nonzero number or NaN, never an infinity |
| PrinterConfigScreen.NaNSettingAccepted | src/screens/PrinterConfig.tsx:125 | a setting like `x5` passes and is saved as NaN |
| PrinterConfigScreen.NegativeSettingAccepted | src/screens/PrinterConfig.tsx:125 | a negative setting like `-5` passes |
| PrinterConfigScreen.ShownSettings | src/screens/PrinterConfig.tsx:40-46 | the inputs are filled in order up to the first setting that came back `null`, where `toString` throws; all three are filled exactly when none is `null` |
| PrinterConfigScreen.SaveThenLoad | src/screens/PrinterConfig.tsx:32-46 | after saving finite settings, loading shows exactly those three numbers |
| PrinterConfigScreen.SavedNaNBreaksLoad | src/screens/PrinterConfig.tsx:32-46 | after saving a NaN dpi, loading fills no input |
| PrinterConfigScreen.ResetShowsDefaults | src/screens/PrinterConfig.tsx:160-163 | reset shows 150, 48 and 30 |
| PrinterConfigScreen.ConfigScreen.constructor | src/screens/PrinterConfig.tsx:25-30 | every input is empty and the loader is on |
| PrinterConfigScreen.ConfigScreen.SetConfig | src/screens/PrinterConfig.tsx:40-46 | the inputs take the shown settings in order, and it throws at the first `null` |
| PrinterConfigScreen.ConfigScreen.Load | src/screens/PrinterConfig.tsx:32-46 | the inputs show the stored (or default) configuration, filled in order up to the first `null` setting, and the loader stops unless `setConfig` threw |
| PrinterConfigScreen.ConfigScreen.OnPrinterDpiChanged | src/screens/PrinterConfig.tsx:184 | only the dpi input changes |
| PrinterConfigScreen.ConfigScreen.OnPrinterWidthMMChanged | src/screens/PrinterConfig.tsx:197 | only the width input changes |
| PrinterConfigScreen.ConfigScreen.OnPrinterNbrCharactersPerLineChanged | src/screens/PrinterConfig.tsx:211 | only the characters-per-line input changes |
| PrinterConfigScreen.ConfigScreen.OnExpenseAmountChanged | src/screens/PrinterConfig.tsx:221 | only the amount input changes |
| PrinterConfigScreen.ConfigScreen.OnPrintPressed | src/screens/PrinterConfig.tsx:48-118 | an invalid setting alerts and prints nothing. Otherwise the test text with the amount (100 when blank) is printed with the parsed configuration, and a printer error is alerted |
| PrinterConfigScreen.ConfigScreen.PrintChecked | src/screens/PrinterConfig.tsx:54-117 | the same, once the checks have run |
| PrinterConfigScreen.ConfigScreen.OnSaveConfigPressed | src/screens/PrinterConfig.tsx:120-158 | an invalid setting alerts and nothing is stored. Otherwise exactly the parsed configuration is stored and `Printer settings saved` is shown |
| PrinterConfigScreen.ConfigScreen.SaveChecked | src/screens/PrinterConfig.tsx:125-157 | the same, once the checks have run |
| PrinterConfigScreen.ConfigScreen.OnResetButtonPressed | src/screens/PrinterConfig.tsx:160-167 | the inputs show the default configuration, the amount is cleared, the default is stored and `Printer config reset` is shown |
| Login.CheckLogin | src/screens/Login.tsx:46-67 | the login checks on the trimmed inputs; `CheckLoginCases` states their order and outcome |
| Login.NumLiteral | src/screens/Login.tsx:82 | the language of the print screen's number pattern; `NumLiteralParse` and `NumLiteralRefusesLetter` characterise it |
| Login.Override | src/screens/Login.tsx:93-101 | whether a typed setting replaces the default; `OverrideCases` characterises it |
| Login.CheckLoginCases | src/screens/Login.tsx:46-67 | the checks run in order: empty email, invalid email, empty password, password shorter than 8. Each alert is given exactly when the earlier checks passed. The credentials that pass are the trimmed inputs |
| Login.EightCharacterPassword | src/screens/Login.tsx:64 | a password of exactly 8 characters passes |
| Login.UnsignedLiteralParse | src/screens/Login.tsx:82 | an unsigned literal of the print pattern starts with a digit or a dot and reads as a non-negative finite number |
| Login.UnsignedLiteralFloat | src/screens/Login.tsx:82-94 | `parseFloat` of an unsigned literal is a non-negative finite number |
| Login.SignedLiteralFloat | src/screens/Login.tsx:82-94 | `parseFloat` of a signed literal is finite, and non-negative after `+` |
| Login.NumLiteralParse | src/screens/Login.tsx:82-101 | a string the print pattern accepts parses to a finite number, non-negative unless it starts with `-` |
| Login.NumLiteralRefusesLetter | src/screens/Login.tsx:82 | the print pattern refuses `x5` and accepts `-.5` and `1.25` |
| Login.OverrideCases | src/screens/Login.tsx:93-101 | a non-empty trimmed input matching the pattern overrides with its finite parsed value; any other input keeps the default |
| Login.BlankKeepsDefault | src/screens/Login.tsx:93-101 | a blank input keeps the default |
| Login.ClearedPrintUsesDefaults | src/screens/Login.tsx:87-141 | after Clear All, the print uses the default configuration unchanged and the amount 100 |
| Login.LoginScreen.constructor | src/screens/Login.tsx:26-33 | every input is empty and nothing is loading |
| Login.LoginScreen.OnEmailTextChange | src/screens/Login.tsx:35 | only the email input changes |
| Login.LoginScreen.OnPasswordTextChange | src/screens/Login.tsx:36-39 | only the password input changes |
| Login.LoginScreen.OnPrinterDpiChanged | src/screens/Login.tsx:183 | only the dpi input changes |
| Login.LoginScreen.OnPrinterWidthMMChanged | src/screens/Login.tsx:196 | only the width input changes |
| Login.LoginScreen.OnPrinterNbrCharactersPerLineChanged | src/screens/Login.tsx:210 | only the characters-per-line input changes |
| Login.LoginScreen.OnExpenseAmountChanged | src/screens/Login.tsx:220 | only the amount input changes |
| Login.LoginScreen.OnLoginPressed | src/screens/Login.tsx:43-79 | a failed check alerts and `login` is not called. Otherwise `login` is called once with the trimmed credentials. Its data goes to `onLoginSuccess` with the loader kept on; a failure alerts its message and stops the loader. No input changes |
| Login.LoginScreen.LoginChecked | src/screens/Login.tsx:49-78 | the same, once the checks have run, and no input changes |
| Login.LoginScreen.OnPrintPressed | src/screens/Login.tsx:81-135 | the configuration is the default with each setting overridden by its input under the print pattern. The test text with the amount (100 when blank) is printed with it, and a printer error is alerted. No input changes |
| Login.LoginScreen.OverriddenConfig | src/screens/Login.tsx:89-101 | each setting is overridden by its input under the print pattern, and otherwise keeps the default |
| Login.LoginScreen.PrintTest | src/screens/Login.tsx:129-134 | one print call with the text and configuration; a printer error is alerted; no input changes |
| Login.LoginScreen.OnClearAllPressed | src/screens/Login.tsx:136-141 | the four settings inputs become `''`; email, password and everything else stay |

## Left out

- The native printer (the `print` and `printWithConfig` calls and the Bluetooth bridge) is not part of this model. A call to it is recorded as the text (and configuration) sent, and its outcome is an input: done, or threw with a message.
- `defaultConfig`, which the login screen imports from the printer module, is not defined there. It is a parameter of the login screen's print handler.
- The backend (`doCreateTrasactionHistory`, `login`) is an abstract outcome: success, or failure with a message.
- The NFC manager's internals (`requestTechnology`, `Ndef` decoding and encoding, `registerTagEvent`, `isEnabled`, `start`) are inputs. The model receives what the first record turned out to be, which events arrive, and how a write went.
- AsyncStorage failures are boolean inputs of each call. The JSON text format is not modelled; a stored value is a datatype holding what `JSON.parse` gives back.
- The app defines only one of the storage keys. The model assumes four distinct keys.
- Random receipt numbers, `moment` dates and UTC timestamps are string parameters. Transaction times are integers, and an invalid date is not modelled.
- Number formatting (`${n}`, `toString`) is the parameter `show`. Finite numbers are exact reals, so IEEE rounding and overflow to infinity are not modelled.
- Numbers.ParseFloat: a literal is its exact decimal value. In the app a literal beyond about 1.8e308 (`1` followed by 309 zeros) reads as `Infinity`, and a tiny non-zero one (`0.` followed by 330 zeros, then `1`) reads as `0`; here they stay finite and non-zero.
- Utils.ValidFloatParse: "never infinite" and "non-negative" hold of exact reals only. A float string with more than 308 integer digits parses to `Infinity` in the app.
- PrintExpense.AcceptedAmount: "in (0, balance]" is about exact reals. An input such as `0.` followed by 330 zeros and then `1` underflows to `0` in the app and is refused by `price <= 0`; here its exact value is positive and it is accepted. An overflowing input is refused by the balance check in both.
- PrinterConfigScreen.ValidFieldParse: with IEEE numbers an overflowing setting is accepted as `Infinity`, saved as `null` and breaks the next load as NaN does, and an underflowing one is refused by `=== 0`. The model sees neither.
- PrinterConfigScreen.ValidateConfigCases: "nonzero or NaN" is about exact reals, for the same reason.
- Utils.IsValidFloatNumber: a `char` here is one Unicode scalar value, while the regular expression (without the `u` flag) reads UTF-16 code units. A character outside the Basic Multilingual Plane counts as one character here and as two in the app, so `.?` accepts it here (`\u{1F600}5`) but not in the app.
- Utils.IsValidAmount: the same unit difference applies to its `.?`.
- Utils.IsEmailValid: the same unit difference applies to the `{2,}` of the final label, so `a@b.\u{1F600}` is refused here and accepted in the app.
- Login.CheckLogin: the password length is counted in scalar values, not UTF-16 code units, so `123456\u{1F600}` is too short here and long enough in the app.
- The settings screen's test print calls `printWithConfig`, which the printer module does not export, so in this version of the app that call throws a `TypeError` and the screen alerts `Error`. The model covers this only through the printer outcome input `PrintThrew`.
- The printer module's `print` takes one argument, so the configuration the login screen passes to it is dropped. The model records the configuration in the print job without claiming the printer uses it.
- The authentication context supplies neither `login` nor `onLoginSuccess`. The model covers the login call only through the response input.
- ReceiptPrinter.PrintDailyReceipt: the in-place sort is a stable insertion sort. `Array.prototype.sort` with this comparator is stable, but its algorithm is not modelled.
- AddItems.AddItemsScreen.OnSaveAndPrintReceiptPressed: the screen calls `printReceipt` with the item list where a price is expected and without merchant name or payment type. The model records the arguments of that call, not the text it would produce.
- AddItems.AddItemsScreen.OnAddItemPressed: the callback's dependency list omits `totalPrice`. The model always uses the total derived from the current list, not a stale one.
- PrintExpense.PrintExpenseScreen.OnSubmitButtonPressed: the callback depends only on `pinCode`. The model reads the current amount, not the one captured at an earlier render.
- PrintExpense.PrintExpenseScreen.Reprint: the one-second timer before clearing and going back fires at once.
- Which screen is shown, the keyboard, focus moves, `Keyboard.dismiss`, `console.log`, and alert buttons other than OK are not modelled.
- `showPrintBalanceAlert`, `showPrintDailyReportAlert` and `showAlertWithTwoButtons` are not modelled. They are dialogs of the home screen, and `Home.tsx` is not part of this model.
- `getCurrentUtcTimestamp`, `getLocalTimestamp`, `flatListKeyExtractor` and `initNfcManager`/`checkIfNfcEnabled` are not modelled. They are clock, randomness or device calls.
- Async interleaving of handlers (a second press while one is awaiting) is not modelled. Each handler runs to completion.
