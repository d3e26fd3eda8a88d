# QuickBank client logic in Dafny

QuickBank is a React Native money-transfer client. Almost all of it is
layout. This project models the part that holds logic:

- the four-step send-money wizard and its amount formulas;
- the sign-up and sign-in forms, with their ordered checks and the session they store;
- the date-of-birth calendar;
- the linked EUR/PKR amount fields;
- the transaction, recipient, bank and country lists, with their filters and counters;
- the small enable rules of the card, email and personal-info forms;
- the mock backend (`api.ts`);
- the three-key storage shim over AsyncStorage (`storage.ts`).

Each screen's `useState` fields are the fields of a Dafny `class`. Each
`onPress`/`onChangeText` handler is a method with a `modifies` frame, and its
`ensures` clauses state the whole new state. Pure expressions of the screens
(`parsedAmount`, `fee`, `filteredTransactions`, `passwordStrength`, …) are
functions. The properties relating them are lemmas.

Modelling choices:

- Amounts are exact `real`s, not IEEE doubles.
- Strings are `seq<char>`.
- AsyncStorage is a `map<string, string>`.
- A rejected promise from the mock backend becomes a parameter of the handler: a
  `failure: Option<string>` carrying the error's message, or a `rejected: bool`.
  The mock itself never rejects.
- The clock read by `sendMoney` (`Date.now()`) is the parameter `now`.
- The `toFixed(2)` formatting of the currency screen is the parameter `format`.
- The order of the outside effects of the login and sign-up handlers is
  recorded in a ghost trace `effects`: the backend call, the two storage writes
  and the `updateAuthState(true)` callback.
- Optional callbacks (the `updateAuthState` prop called through `?.`, the
  date picker's `onDateSelect` route parameter) become a boolean parameter
  saying whether the callback was passed; the call happens only then.

Files, one module each:

| file | module | models |
|---|---|---|
| options.dfy | Options | `Option` |
| seqs.dfy | Seqs | `Array.prototype.filter`, order-preserving subsequences |
| strings.dfy | Strings | `toLowerCase`, `includes`, capitalisation, `String(n)`, string order |
| decimal.dfy | Decimal | `parseFloat` on texts of digits, '.' and ',' |
| json.dfy | Json | `JSON.stringify` / `JSON.parse` of a user record and of a boolean |
| api.dfy | Api | src/services/api.ts |
| storage.dfy | Storage | src/services/storage.ts |
| effects.dfy | Effects | the effect trace of the sign-in screens |
| sendmoney.dfy | SendMoney | src/screens/SendMoneyScreen.tsx |
| signup.dfy | Signup | src/screens/auth/SignupScreen.tsx |
| login.dfy | Login | src/screens/auth/LoginScreen.tsx |
| datepicker.dfy | DatePicker | src/screens/auth/DatePickerScreen.tsx |
| currency.dfy | Currency | src/screens/SendMoneyCurrencyScreen.tsx |
| transactions.dfy | Transactions | src/screens/TransactionsScreen.tsx |
| recipients.dfy | Recipients | src/screens/RecipientsScreen.tsx |
| banks.dfy | BankSelection | src/screens/ReceiveBankSelectionScreen.tsx |
| countries.dfy | CountrySelection | src/screens/auth/CountrySelectionScreen.tsx |
| addcard.dfy | AddCard | src/screens/AddCardScreen.tsx |
| emailsignup.dfy | EmailSignup | src/screens/auth/EmailSignupScreen.tsx |
| personalinfo.dfy | PersonalInfo | src/screens/auth/PersonalInfoScreen.tsx |

### Behaviour of the code worth noting

- **Worked example.** For an amount of "250" the code's formula gives
  20725 − 2.5·82.9 = 20517.75 (`SendMoney.SendTwoHundredFifty`).
- **Fee on a zero amount.** The fee on an amount of 0 is 0
  (src/screens/SendMoneyScreen.tsx:44).
- **No payment-method guard.** No payment method can be selected
  (src/screens/SendMoneyScreen.tsx:294-308), so the final send is not
  guarded on one.
- **Failed send.** A failed send is only logged, and `loading` is cleared
  (src/screens/SendMoneyScreen.tsx:68-72); no error is shown.
- **Linked amounts.** The two amount fields are linked through `toFixed(2)`
  rounding, so converting there and back need not give the typed amount,
  and no such round trip is claimed.

## Model

| member | source | states |
|---|---|---|
| Seqs.Filter | src/screens/TransactionsScreen.tsx:31-35 | `filter` yields at most the input's elements, each one satisfying the predicate, and keeps every element that satisfies it; how often each one is kept is `Seqs.FilterCounts` |
| Seqs.FilterIsSubsequence | src/screens/TransactionsScreen.tsx:31-35 | a filtered list is an order-preserving subsequence of the list |
| Seqs.FilterKeepsAll | src/screens/TransactionsScreen.tsx:31-35 | a predicate true of every element keeps the whole list unchanged |
| Seqs.FilterCongruent | src/screens/RecipientsScreen.tsx:32-36 | predicates that agree on the elements give the same filtered list |
| Seqs.FilterCounts | src/screens/TransactionsScreen.tsx:31-35 | each element kept by the predicate occurs in the result exactly as often as in the input; every other element does not occur |
| Seqs.FilterAppend | src/screens/TransactionsScreen.tsx:31-35 | filtering a concatenation is concatenating the filtered parts |
| Seqs.FilterDistinct | src/screens/auth/CountrySelectionScreen.tsx:41-43 | filtering a list without repeated elements gives a list without repeated elements |
| Seqs.FilterIdempotent | src/screens/SendMoneyCurrencyScreen.tsx:66 | filtering twice by one predicate is filtering once |
| Strings.Lower | src/screens/RecipientsScreen.tsx:34-35 | `toLowerCase` keeps the length and lower-cases each character in place |
| Strings.LowerIdempotent | src/screens/RecipientsScreen.tsx:34-35 | lower-casing a lower-cased text changes nothing |
| Strings.MatchesLowerTerm | src/screens/RecipientsScreen.tsx:34-35 | a search term and its lower-cased form match the same texts |
| Strings.MatchesEmpty | src/screens/RecipientsScreen.tsx:32-36 | the empty term matches every text |
| Strings.Capitalize | src/screens/TransactionsScreen.tsx:98 | `charAt(0).toUpperCase() + slice(1)` upper-cases the first character and keeps the rest |
| Strings.NatToString | src/services/api.ts:151 | `String(n)` is a digit string without a leading zero whose decimal value is `n` |
| Decimal.LeadingDigits | src/screens/SendMoneyScreen.tsx:38 | the digit scan `parseFloat` starts with: all scanned characters are digits and the next one is not |
| Decimal.FracValue | src/screens/SendMoneyScreen.tsx:38 | the digits after a decimal point are worth between 0 and 1 |
| Decimal.ParseFloatPrefix | src/screens/SendMoneyScreen.tsx:38 | `parseFloat` is NaN exactly when the text does not start with a digit or with '.' followed by a digit; otherwise it is a non-negative value |
| Decimal.AllDigitsLeading | src/screens/SendMoneyScreen.tsx:38 | a text of digits only is scanned whole |
| Decimal.LeadingDigitsStop | src/screens/SendMoneyScreen.tsx:38 | the digit scan stops at the first character that is not a digit |
| Decimal.LeadingDigitsOf | src/screens/SendMoneyScreen.tsx:38 | a run of digits followed by a non-digit, or by nothing, is scanned as exactly that run |
| Decimal.ParseWhole | src/screens/SendMoneyScreen.tsx:38 | digits followed by neither a digit nor a point read as the integer they spell, whatever follows |
| Decimal.ParseAtPoint | src/screens/SendMoneyScreen.tsx:38 | a text whose leading digits are followed by a point, with at least one digit around it, reads as the whole part plus the fraction the next digit run spells |
| Decimal.ParseDecimal | src/screens/SendMoneyScreen.tsx:38 | digits, a point and digits, with at least one digit, read as the whole part plus the fraction, whatever non-digit text follows |
| Json.ParseEscapedString | src/services/storage.ts:27-34 | `JSON.parse` reads back exactly the string body `JSON.stringify` escaped, and stops after its closing quote |
| Json.ParseQuoted | src/services/storage.ts:27-34 | a quoted string literal parses back to the string, with the following text left over |
| Json.DecodeEncodedUser | src/services/storage.ts:27-34 | parsing the stored text of a user gives back that user, with or without a phone |
| Json.DecodeEncodedBool | src/services/storage.ts:40-47 | parsing the stored text of a boolean gives back that boolean |
| Api.Login | src/services/api.ts:52-67 | login resolves with user "1" "John" "Doe" carrying the credentials' email, and token "mock-token-123" |
| Api.Signup | src/services/api.ts:70-85 | signup resolves with user "1" carrying the form's first name, last name and email, and token "mock-token-123" |
| Api.GetTransactions | src/services/api.ts:100-105 | four transactions with ids 1..4 and positive amounts |
| Api.TransactionsNewestFirst | src/services/api.ts:100-105 | each fixture transaction's date is not later than the one before it |
| Api.GetRecipients | src/services/api.ts:117-121 | three recipients with ids 1..3, each with an account number |
| Api.GetBalance | src/services/api.ts:133 | the balance is 5432.5 USD |
| Api.SendMoney | src/services/api.ts:151 | the result is a success whose transaction id is "TXN" followed by the decimal numeral of the clock reading, with no leading zero |
| Storage.ManagedKeys | src/services/storage.ts:7-11 | the three storage keys are distinct |
| Storage.Store.constructor | src/services/storage.ts:13 | the shim starts over the given well-formed store |
| Storage.Store.SetAuthToken | src/services/storage.ts:15-17 | the token key now maps to the token; nothing else changes |
| Storage.Store.GetAuthToken | src/services/storage.ts:19-21 | returns the stored token, or null when the key is absent |
| Storage.Store.RemoveAuthToken | src/services/storage.ts:23-25 | only the token key is removed |
| Storage.Store.SetUserData | src/services/storage.ts:27-29 | the user key now maps to the user's JSON text; nothing else changes; the store stays well formed |
| Storage.Store.GetUserData | src/services/storage.ts:31-34 | returns null exactly when the key is absent, otherwise the parsed user |
| Storage.Store.RemoveUserData | src/services/storage.ts:36-38 | only the user key is removed |
| Storage.Store.SetRememberMe | src/services/storage.ts:40-42 | the remember-me key now maps to the boolean's JSON text; nothing else changes |
| Storage.Store.GetRememberMe | src/services/storage.ts:44-47 | returns false when the key is absent, otherwise the stored boolean |
| Storage.Store.ClearAll | src/services/storage.ts:49-56 | exactly the three managed keys are removed |
| Storage.WritesAreIndependent | src/services/storage.ts:7-11 | writing or removing one key leaves what the other getters return unchanged |
| Storage.AuthTokenRoundTrip | src/services/storage.ts:15-25 | set then get gives the token; after remove, get gives null |
| Storage.UserDataRoundTrip | src/services/storage.ts:27-34 | set then get gives the user; after remove, get gives null |
| Storage.RememberMeRoundTrip | src/services/storage.ts:40-47 | set then get gives the value; after remove, get gives false |
| Storage.ClearAllResets | src/services/storage.ts:49-56 | after clearAll the three getters return null, null and false, and every other key keeps its value |
| SendMoney.AmountPatternIsRegex | src/screens/SendMoneyScreen.tsx:181 | the character scanner accepts exactly the texts `^\d*\.?\d{0,2}$` matches |
| SendMoney.AmountPatternNumeric | src/screens/SendMoneyScreen.tsx:181 | an accepted amount text holds only digits and '.' |
| SendMoney.ParsedAmount | src/screens/SendMoneyScreen.tsx:37-40 | `parsedAmount` is never negative and is 0 when the text is not a number |
| SendMoney.ParsedAmountIsCents | src/screens/SendMoneyScreen.tsx:37-40 | every text the amount guard accepts parses exactly to its whole number of cents |
| SendMoney.EmptyOrPointIsZero | src/screens/SendMoneyScreen.tsx:37-40 | "" and "." pass the guard and count as amount 0 |
| SendMoney.Fee | src/screens/SendMoneyScreen.tsx:44 | the fee is 0 on a zero amount, otherwise at least 1.99 and at least 1%; exactly 1.99 up to 199 and exactly 1% from 199 |
| SendMoney.ConvertedNet | src/screens/SendMoneyScreen.tsx:42-45 | the net amount lies between 0 and the converted amount; it is 0 up to the minimum fee, positive above it, and 99% of the converted amount from 199 |
| SendMoney.SendTwoHundredFifty | src/screens/SendMoneyScreen.tsx:37-45 | for the initial "250": amount 250, converted 20725, fee 2.5, net 20517.75 |
| SendMoney.Wizard.Amount | src/screens/SendMoneyScreen.tsx:37-40 | the parsed amount of the field's text is its value in cents over 100 |
| SendMoney.Wizard.constructor | src/screens/SendMoneyScreen.tsx:21-26 | step 1, no recipient, no recipients loaded, amount "250", empty purpose, not loading |
| SendMoney.Wizard.LoadRecipients | src/screens/SendMoneyScreen.tsx:32-35 | the list becomes the fixture recipients |
| SendMoney.Wizard.SelectRecipient | src/screens/SendMoneyScreen.tsx:126-129 | the pressed recipient becomes the selection |
| SendMoney.Wizard.Continue | src/screens/SendMoneyScreen.tsx:161-166 | step 1 moves to 2 only when a recipient is selected; every handler keeps the step in 1..4 |
| SendMoney.Wizard.EditAmount | src/screens/SendMoneyScreen.tsx:180-184 | the amount text changes only to a text the guard accepts |
| SendMoney.Wizard.EditPurpose | src/screens/SendMoneyScreen.tsx:195 | the purpose becomes the typed text |
| SendMoney.Wizard.Review | src/screens/SendMoneyScreen.tsx:207-211 | step 2 moves to 3 only with a non-zero amount and a non-empty purpose |
| SendMoney.Wizard.ContinueToPayment | src/screens/SendMoneyScreen.tsx:280-284 | step 3 moves to 4 unconditionally |
| SendMoney.Wizard.Back | src/screens/SendMoneyScreen.tsx:203-313 | Back moves exactly one step and changes nothing else |
| SendMoney.Wizard.HandleSend | src/screens/SendMoneyScreen.tsx:55-73 | on step 4 the guard always holds; exactly one request {recipient id, amount, "USD", purpose} is sent; `loading` is false afterwards; a resolved call yields the service's success result |
| Signup.ContainsUpper | src/screens/auth/SignupScreen.tsx:50 | `/[A-Z]/.test` holds exactly when some character is an upper-case letter |
| Signup.ContainsDigit | src/screens/auth/SignupScreen.tsx:51 | `/[0-9]/.test` holds exactly when some character is a digit |
| Signup.Strength | src/screens/auth/SignupScreen.tsx:47-54 | each strength flag holds exactly when its condition does: length at least 8, an upper-case letter, a digit |
| Signup.ValidationError | src/screens/auth/SignupScreen.tsx:61-75 | the first failing check decides the message: empty field, then mismatch, then weak password; no message exactly when all three pass |
| Signup.WithField | src/screens/auth/SignupScreen.tsx:57 | `{...formData, [field]: value}` replaces the named field only |
| Signup.FailureMessage | src/screens/auth/SignupScreen.tsx:87 | the shown error is the rejection's message, or the default when that is empty; never empty |
| Signup.SignupScreen.constructor | src/screens/auth/SignupScreen.tsx:37-45 | empty form, not loading, no error |
| Signup.SignupScreen.HandleChange | src/screens/auth/SignupScreen.tsx:56-59 | only the named field changes and the error is cleared |
| Signup.SignupScreen.HandleSubmit | src/screens/auth/SignupScreen.tsx:61-89 | a failing check shows its message with no call, no write and loading unchanged; otherwise the outcome `Submit` states |
| Signup.SignupScreen.Submit | src/screens/auth/SignupScreen.tsx:77-89 | signup is called with the form; on success the token, then the user, are stored, in that order, and then the auth state is set when `updateAuthState` was passed; on a rejection nothing is stored and the message shows; loading ends false |
| Signup.SignupStoresSession | src/screens/auth/SignupScreen.tsx:81-83 | after a successful sign-up the stored token is the mock token and the stored user carries the form's names and email |
| Login.WithField | src/screens/auth/LoginScreen.tsx:35 | only the named field is replaced |
| Login.FailureMessage | src/screens/auth/LoginScreen.tsx:55 | the shown error is the rejection's message, or the default when that is empty; never empty |
| Login.LoginScreen.constructor | src/screens/auth/LoginScreen.tsx:30-32 | empty form, not loading, no error |
| Login.LoginScreen.HandleChange | src/screens/auth/LoginScreen.tsx:34-37 | only the named field changes and the error is cleared |
| Login.LoginScreen.HandleSubmit | src/screens/auth/LoginScreen.tsx:39-57 | an empty field shows the message with no call, no write and loading unchanged; otherwise login is called; on success the token, then the user, are stored, and then the auth state is set when `updateAuthState` was passed; on a rejection nothing is stored and the message shows; loading ends false |
| Login.LoginStoresSession | src/screens/auth/LoginScreen.tsx:49-51 | after a successful sign-in the stored token is "mock-token-123" and the stored user is John Doe with the typed email |
| DatePicker.GregorianDaysInMonth | src/screens/auth/DatePickerScreen.tsx:28 | months have 31 or 30 days by the Gregorian table, and February has 29 exactly in leap years |
| DatePicker.GregorianWeekday | src/screens/auth/DatePickerScreen.tsx:27 | the weekday of a Gregorian date is in 0..6 |
| DatePicker.YearBaseStep | src/screens/auth/DatePickerScreen.tsx:27 | the weekday of a date moves by two from one year to the next after a leap day, otherwise by one |
| DatePicker.JsYear | src/screens/auth/DatePickerScreen.tsx:27-28 | `new Date` reads a year in 0..99 as 1900..1999 and other years as given |
| DatePicker.FirstDay | src/screens/auth/DatePickerScreen.tsx:27 | `firstDay` is a weekday in 0..6 |
| DatePicker.DaysInMonth | src/screens/auth/DatePickerScreen.tsx:28 | `daysInMonth` is the Gregorian length of the month shown, between 28 and 31 |
| DatePicker.PrevMonth | src/screens/auth/DatePickerScreen.tsx:57-64 | January goes to December of the year before; any other month to the one before in the same year |
| DatePicker.NextMonth | src/screens/auth/DatePickerScreen.tsx:66-73 | December goes to January of the year after; any other month to the one after in the same year |
| DatePicker.PrevNextInverse | src/screens/auth/DatePickerScreen.tsx:57-73 | Next undoes Prev and Prev undoes Next |
| DatePicker.NextMonthStartsAfterLastDay | src/screens/auth/DatePickerScreen.tsx:25-41 | the month after starts on the weekday following the last day of this month |
| DatePicker.FormatDateInjective | src/screens/auth/DatePickerScreen.tsx:52 | the label "d Month year" determines the day, month and year it was made from |
| DatePicker.InitialLabel | src/screens/auth/DatePickerScreen.tsx:19-22 | the initial label is the one day 22, month 11, year 2000 format to |
| DatePicker.November2000StartsOnWednesday | src/screens/auth/DatePickerScreen.tsx:24-28 | the first month shown starts on a Wednesday and has 30 days |
| DatePicker.DatePickerScreen.constructor | src/screens/auth/DatePickerScreen.tsx:19-22 | "22 November 2000", day 22, month 11, year 2000 |
| DatePicker.DatePickerScreen.GenerateCalendarDays | src/screens/auth/DatePickerScreen.tsx:25-41 | the grid has `firstDay` empty cells and then the days 1..daysInMonth |
| DatePicker.DatePickerScreen.HandleDaySelect | src/screens/auth/DatePickerScreen.tsx:49-55 | a non-zero day becomes the selection and the label; 0 changes nothing |
| DatePicker.DatePickerScreen.HandlePrevMonth | src/screens/auth/DatePickerScreen.tsx:57-64 | the shown month becomes the previous one; the selection is kept |
| DatePicker.DatePickerScreen.HandleNextMonth | src/screens/auth/DatePickerScreen.tsx:66-73 | the shown month becomes the next one; the selection is kept |
| DatePicker.DatePickerScreen.HandleOk | src/screens/auth/DatePickerScreen.tsx:75-81 | the selected label is handed to the callback when there is one |
| Currency.Sanitize | src/screens/SendMoneyCurrencyScreen.tsx:66 | the result holds only digits and commas and keeps every digit and comma typed; how often, and in which order, are `Currency.SanitizeCounts` and `Currency.SanitizeKeepsOrder` |
| Currency.SanitizeCounts | src/screens/SendMoneyCurrencyScreen.tsx:66 | every digit and comma occurs in the result as often as it was typed, and no other character occurs |
| Currency.SanitizeAppend | src/screens/SendMoneyCurrencyScreen.tsx:66 | sanitising a concatenation sanitises each part and concatenates the results |
| Currency.SanitizeChar | src/screens/SendMoneyCurrencyScreen.tsx:66 | one character is kept exactly when it is a digit or a comma |
| Currency.SanitizeKeepsOrder | src/screens/SendMoneyCurrencyScreen.tsx:66 | the kept characters are in their typed order |
| Currency.SanitizeIdempotent | src/screens/SendMoneyCurrencyScreen.tsx:66 | sanitising twice is sanitising once |
| Currency.SanitizeClean | src/screens/SendMoneyCurrencyScreen.tsx:66 | a text of digits and commas passes unchanged |
| Currency.FirstComma | src/screens/SendMoneyCurrencyScreen.tsx:70 | the position of the first comma, or the length when there is none |
| Currency.ReplaceFirstComma | src/screens/SendMoneyCurrencyScreen.tsx:70 | `replace(',', '.')` turns the first comma into '.' and keeps every other character |
| Currency.NumberIn | src/screens/SendMoneyCurrencyScreen.tsx:70 | the parsed value, when there is one, is not negative |
| Currency.NumberInDigits | src/screens/SendMoneyCurrencyScreen.tsx:70 | a sanitised text without a comma reads as the integer its digits spell, and the empty text is NaN |
| Currency.NumberInParts | src/screens/SendMoneyCurrencyScreen.tsx:70 | a sanitised text with a comma reads as the digits before the first comma plus the fraction spelled by the digits up to the second comma, ignoring everything from there on; NaN only when both digit runs are empty |
| Currency.FirstCommaAfterDigits | src/screens/SendMoneyCurrencyScreen.tsx:70 | the first comma after a run of digits is the one that ends it |
| Currency.ReplaceCommaAfterDigits | src/screens/SendMoneyCurrencyScreen.tsx:70 | in digits, a comma and any text, `replace(',', '.')` turns exactly that comma into the point |
| Currency.NumberInTwelveAndAHalf | src/screens/SendMoneyCurrencyScreen.tsx:70 | "12,5" reads as 12.5 |
| Currency.NumberInStopsAtSecondComma | src/screens/SendMoneyCurrencyScreen.tsx:70 | "1,2,3" reads as 1.2 |
| Currency.NotANumberIff | src/screens/SendMoneyCurrencyScreen.tsx:70-71 | a non-empty sanitised text is NaN exactly when it starts with a comma not followed by a digit |
| Currency.CurrencyScreen.constructor | src/screens/SendMoneyCurrencyScreen.tsx:19-20 | both fields start as "0,00" |
| Currency.CurrencyScreen.EditSend | src/screens/SendMoneyCurrencyScreen.tsx:64-78 | the send field takes the sanitised text; the receive field is reset to "0,00" on "" or "0,00", left alone on NaN, and otherwise set to the formatted value times 287.46 |
| Currency.CurrencyScreen.EditReceive | src/screens/SendMoneyCurrencyScreen.tsx:98-112 | the receive field takes the sanitised text; the send field is reset to "0,00" on "" or "0,00", left alone on NaN, and otherwise set to the formatted value divided by 287.46 |
| Transactions.FilteredTransactions | src/screens/TransactionsScreen.tsx:31-35 | a transaction is listed exactly when it matches both the type and the status filter |
| Transactions.FilteredKeepsOrder | src/screens/TransactionsScreen.tsx:31-35 | the listed transactions keep their order |
| Transactions.NoFilterListsAll | src/screens/TransactionsScreen.tsx:31-35 | with both filters on "all" every transaction is listed |
| Transactions.TotalsCoverAll | src/screens/TransactionsScreen.tsx:37-43 | total sent plus total received is the sum of all amounts |
| Transactions.AmountSumNonNegative | src/screens/TransactionsScreen.tsx:37-43 | totals of non-negative amounts are not negative |
| Transactions.FixtureTotals | src/screens/TransactionsScreen.tsx:37-43 | over the fixture list, 275 was sent and 200 received |
| Transactions.StatusLabel | src/screens/TransactionsScreen.tsx:98 | the badges read "Completed", "Pending" and "Failed" |
| Transactions.AmountPrefix | src/screens/TransactionsScreen.tsx:72 | the sign is '-' exactly for money sent and '+' exactly for money received |
| Recipients.FilteredRecipients | src/screens/RecipientsScreen.tsx:32-36 | a recipient is shown exactly when its name or country contains the term, ignoring case |
| Recipients.FilteredKeepsOrder | src/screens/RecipientsScreen.tsx:32-36 | the shown recipients keep their order |
| Recipients.EmptySearchShowsAll | src/screens/RecipientsScreen.tsx:32-36 | an empty term shows every recipient |
| Recipients.SearchIgnoresCase | src/screens/RecipientsScreen.tsx:34-35 | a term and its lower-cased form show the same list |
| Recipients.WithoutId | src/screens/RecipientsScreen.tsx:39 | exactly the recipients with the id are dropped |
| Recipients.DeleteKeepsOrder | src/screens/RecipientsScreen.tsx:38-40 | the remaining recipients keep their order |
| Recipients.DeleteIdempotent | src/screens/RecipientsScreen.tsx:38-40 | deleting an id twice is deleting it once |
| Recipients.CountriesAtMostRecipients | src/screens/RecipientsScreen.tsx:142-148 | the number of distinct countries never exceeds the number of recipients |
| Recipients.FixtureCountries | src/screens/RecipientsScreen.tsx:148 | the fixture recipients are in three countries: UK, Canada and Australia |
| Recipients.RecipientsScreen.constructor | src/screens/RecipientsScreen.tsx:20-21 | no recipients and an empty search term |
| Recipients.RecipientsScreen.LoadRecipients | src/screens/RecipientsScreen.tsx:27-30 | the list becomes the fixture recipients |
| Recipients.RecipientsScreen.SetSearchTerm | src/screens/RecipientsScreen.tsx:21 | the search term becomes the typed text |
| Recipients.RecipientsScreen.HandleDelete | src/screens/RecipientsScreen.tsx:38-40 | exactly the recipients with the id go, so none with it remains |
| Recipients.RecipientsScreen.Render | src/screens/RecipientsScreen.tsx:32-36 | the shown list is the search result; Countries is the distinct-country count and never exceeds Total Recipients |
| BankSelection.Banks | src/screens/ReceiveBankSelectionScreen.tsx:21-29 | seven banks with ids "1".."7", all distinct |
| BankSelection.FilteredBanks | src/screens/ReceiveBankSelectionScreen.tsx:36-38 | a bank is listed exactly when its name contains the query, ignoring case |
| BankSelection.FilteredBanksKeepOrder | src/screens/ReceiveBankSelectionScreen.tsx:36-38 | the listed banks keep their order |
| BankSelection.EmptyQueryListsAll | src/screens/ReceiveBankSelectionScreen.tsx:21-38 | an empty query lists every bank in order |
| BankSelection.BankSearchIgnoresCase | src/screens/ReceiveBankSelectionScreen.tsx:37 | a query and its lower-cased form list the same banks |
| CountrySelection.Countries | src/screens/auth/CountrySelectionScreen.tsx:23-33 | nine countries with ids "1".."9", all distinct |
| CountrySelection.FilteredCountries | src/screens/auth/CountrySelectionScreen.tsx:41-43 | a country is listed exactly when its name contains the query, ignoring case |
| CountrySelection.FilteredCountriesKeepOrder | src/screens/auth/CountrySelectionScreen.tsx:41-43 | the listed countries keep their order |
| CountrySelection.EmptyQueryListsAll | src/screens/auth/CountrySelectionScreen.tsx:23-43 | an empty query lists every country in order |
| CountrySelection.CountrySearchIgnoresCase | src/screens/auth/CountrySelectionScreen.tsx:42 | a query and its lower-cased form list the same countries |
| CountrySelection.CountrySelectionScreen.constructor | src/screens/auth/CountrySelectionScreen.tsx:38-39 | empty query; country "3" selected |
| CountrySelection.CountrySelectionScreen.SetSearchQuery | src/screens/auth/CountrySelectionScreen.tsx:65 | the query becomes the typed text; the selection is kept |
| CountrySelection.CountrySelectionScreen.PressItem | src/screens/auth/CountrySelectionScreen.tsx:77-79 | the pressed country becomes the selection and shows the checkmark; the query is kept |
| CountrySelection.CountrySelectionScreen.AtMostOneCheckmark | src/screens/auth/CountrySelectionScreen.tsx:85-91 | however the list is filtered, two rows that both show the checkmark are the same row: at most one row shows it |
| CountrySelection.SameIdSameCountry | src/screens/auth/CountrySelectionScreen.tsx:23-33 | an id names at most one fixture country |
| CountrySelection.InitialSelectionIsEnglish | src/screens/auth/CountrySelectionScreen.tsx:26 | the initial selection "3" is the fixture's English |
| AddCard.Capped | src/screens/AddCardScreen.tsx:52-99 | an input with `maxLength` n keeps the first n characters of the text, or all of it when shorter |
| AddCard.Preview | src/screens/AddCardScreen.tsx:39-47 | the preview of a field shows its value, or the placeholder while the value is empty |
| AddCard.AddCardScreen.constructor | src/screens/AddCardScreen.tsx:17-20 | all four fields start empty, so Add Card starts disabled |
| AddCard.AddCardScreen.SetCardNumber | src/screens/AddCardScreen.tsx:57-59 | only the number changes, to the text cut at 19 characters |
| AddCard.AddCardScreen.SetCardName | src/screens/AddCardScreen.tsx:69 | only the name changes, to the text |
| AddCard.AddCardScreen.SetExpiryDate | src/screens/AddCardScreen.tsx:81-83 | only the expiry changes, to the text cut at 5 characters |
| AddCard.AddCardScreen.SetCvv | src/screens/AddCardScreen.tsx:94-96 | only the CVV changes, to the text cut at 3 characters |
| AddCard.AddCardScreen.CardPreview | src/screens/AddCardScreen.tsx:39-47 | the preview shows each field or its placeholder, and is never blank |
| AddCard.AddCardScreen.PressAddCard | src/screens/AddCardScreen.tsx:103-111 | the press goes through exactly when all four fields are filled; it stores nothing |
| EmailSignup.EmailSignupScreen.constructor | src/screens/auth/EmailSignupScreen.tsx:17-18 | empty email and terms not accepted, so Continue starts disabled |
| EmailSignup.EmailSignupScreen.SetEmail | src/screens/auth/EmailSignupScreen.tsx:47 | only the email changes |
| EmailSignup.EmailSignupScreen.ToggleTerms | src/screens/auth/EmailSignupScreen.tsx:62 | only the terms flag changes, to its negation, so two presses restore it |
| EmailSignup.EmailSignupScreen.PressContinue | src/screens/auth/EmailSignupScreen.tsx:75-81 | Continue goes through exactly when an email is typed and the terms are accepted |
| PersonalInfo.PersonalInfoScreen.constructor | src/screens/auth/PersonalInfoScreen.tsx:21-23 | all three fields start empty, so Continue starts disabled |
| PersonalInfo.PersonalInfoScreen.SetFirstName | src/screens/auth/PersonalInfoScreen.tsx:59 | only the first name changes |
| PersonalInfo.PersonalInfoScreen.SetLastName | src/screens/auth/PersonalInfoScreen.tsx:69 | only the last name changes |
| PersonalInfo.PersonalInfoScreen.OnRouteParams | src/screens/auth/PersonalInfoScreen.tsx:26-30 | a non-empty `selectedDate` route parameter replaces the date; otherwise the date is kept |
| PersonalInfo.PersonalInfoScreen.OnDateSelect | src/screens/auth/PersonalInfoScreen.tsx:77-81 | the calendar callback sets the date and leaves the names alone |
| PersonalInfo.PersonalInfoScreen.DateFieldText | src/screens/auth/PersonalInfoScreen.tsx:83-84 | the field shows the date, or "Date of birth" while it is empty |
| PersonalInfo.PersonalInfoScreen.PressContinue | src/screens/auth/PersonalInfoScreen.tsx:90-98 | Continue goes through exactly when both names and the date are filled in |

## Left out

- Layout, styles, icons and copy text of every screen: presentation only.
- Navigation (`navigate`, `goBack`, the navigators): navigation-library behaviour. A
  press that navigates is modelled by whether it goes through (`PressContinue`,
  `PressAddCard`) and nothing more.
- The Button component is not part of this model. Its rule that a press is
  ignored while disabled or loading is taken as given: the wizard methods
  require the step they run on, and `HandleSend` requires `loading` false.
- `authAPI.logout`, whose only effect is console logging; all console logging,
  including the error log of a failed send.
- Promise and `setTimeout` latency and the states in between: each handler is
  one atomic step, and a rejection is an input (`failure`, `rejected`).
- `Intl.NumberFormat` in the wizard: display only.
- Currency.CurrencyScreen.EditSend: the `toFixed(2).replace('.', ',')`
  formatting of `value × 287.46` is the parameter `format`, since IEEE rounding
  is not modelled. Currency.CurrencyScreen.EditReceive is the same, with the
  division by 287.46.
- IEEE doubles: amounts are exact reals. Decimal.ParseFloatPrefix does not model the
  rounding of long decimal texts or `parseFloat` giving Infinity for huge ones.
- Decimal.ParseFloatPrefix is defined only on texts of digits, '.' and ',', the only
  texts its two callers pass. Exponents, signs and leading blanks are not modelled.
- Strings.Lower: `toLowerCase` is modelled on the ASCII letters only. The fixture
  names are ASCII.
- DatePicker.FirstDay: the proleptic Gregorian calendar over unbounded years.
  The JavaScript `Date` range limit (±10^8 days) is not modelled.
- Json: `JSON.parse` is modelled only on the layout `JSON.stringify` writes
  (members in declaration order, no blanks). A store holding other text is
  excluded by the `Storage.Store` invariant that the user and remember-me
  entries are such encodings.
- AsyncStorage's own failures are not modelled.
- Signup.Strength: the length check counts characters (Unicode scalar
  values), while JavaScript's `.length` counts UTF-16 code units, in which
  a character outside the Basic Multilingual Plane such as an emoji counts
  twice. Four such characters reach length 8 in the app but not here.
- AddCard.Capped: `maxLength` counts UTF-16 code units, this model counts
  characters; the two agree on the digit and letter texts the card fields
  are meant for, and differ for characters outside the Basic Multilingual
  Plane.
- AddCard.Capped: `maxLength` is modelled as cutting the new text to the
  limit. The platform refuses the keystroke instead; for typing one character
  at a time the result is the same.
- The `selected` flag on the English entry of the country fixture is never
  read by the code, so `CountrySelection.Country` has no such field.
- The ReceiveMoney screen (clipboard I/O and an alert timer) and all screens
  without logic of their own.
