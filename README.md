# PMA wallet core in Dafny

A model of the core of the PMA mobile wallet, a React Native app for stablecoin
payments (USDT, USDC and AECoin). The model covers these parts:

- **Wallet service**: recovery-phrase checks, account derivation, the secure-store
  round trip of the wallet record, QR payment URIs, backup restore and the fee rule.
- **Blockchain service**: the chain gateway's balance, transfer, history and
  receipt-status decisions.
- **Wallet and auth contexts**: the two session objects behind the app's screens.
- **Screens**: sign-in, registration, home, bank transfer, spending goals and
  spending analytics, down to the figures each one computes.
- **Analytics service**: monthly sums, insights, the month-end projection and the
  weekly trend.

The model is organised like this:

- Each source file is one module.
- Records and enumerations are datatypes.
- State that React keeps in `useState` cells, or that a service keeps in static
  fields, is a `class` whose methods carry `modifies` clauses.
- The device stores (expo SecureStore and AsyncStorage) are one `KeyValueStore`
  class. It holds a map from key to stored value and a flag saying whether writes
  succeed. A JSON record is stored as a tagged value, so `JSON.parse` of what
  `JSON.stringify` wrote always gives the record back. A stored value is either
  such a record or plain text, and the model reads plain text as holding no
  record; other JSON values are left out (see below).
- Collaborators the app does not implement are passed in as function parameters:
  - the BIP-39 library's phrase check (`bip39Check`);
  - HD derivation (`derive`);
  - `ethers.isAddress` (`isAddress`);
  - the ERC-20 `balanceOf`, `transfer` and event queries;
  - the clock (`now`, a `YearMonth` or a millisecond instant);
  - generated phrases, ids and mock hashes.
- JavaScript behaviour the code relies on is written out:
  - the ECMAScript whitespace set of `trim` and `\s`;
  - `substring`'s clamping;
  - `split` on one character;
  - `parseFloat` on a decimal numeral;
  - `Math.round`, `Math.min` and `Math.max`;
  - `URLSearchParams` on `name=value` pairs;
  - `Array.prototype.sort`'s stability, which the model's insertion sort is proved to have;
  - insertion order of the keys of an object built by `reduce`.

Where the design description and the code disagree, the model follows the code:

- **No floor on the balance after a send.** The described optimistic deduction is
  floored at 0. The code subtracts with no floor and performs no check of recipient,
  amount or balance before sending (`WalletContext.SendCanOverdraw`).
- **Balance read failures give 0.** The described behaviour returns the last cached
  balance when a read fails. The code's `BlockchainService.getBalance` returns 0 on
  every error and without a provider, and the session stores that 0.
- **History replaces the list.** The described transaction list de-duplicates by id
  and keeps insertion order. The code replaces the whole list with the fetched
  history, sorted newest first by timestamp. This happens in `loadTransactions` and
  `refreshWallet`. Any failed event query makes the whole history empty.
- **Clearing only touches the store.** The described `clearWalletData` also wipes
  in-memory state. The code's `WalletService.clearWalletData` only deletes the three
  store keys and logs a failed delete. `clearWalletData` and `isLoading` are declared
  in `WalletContextType` but the provider does not supply them.
- **Balances can go negative.** The described balances are non-negative; the code
  never enforces it.

## Model

| member | source | states |
|---|---|---|
| Types.ParseCurrency | src/types/index.ts:35 | a parsed currency is one whose symbol is exactly the text; anything else is no currency |
| Types.SymbolRoundTrip | src/types/index.ts:35 | reading back the symbol of any currency gives that currency |
| Types.KindNameInjective | src/types/index.ts:33 | distinct transaction kinds have distinct `type` strings |
| Types.Balances.Set | src/types/index.ts:21-25 | `{...balance, [c]: v}` sets currency c to v and keeps the other two |
| Types.BalancesExtensional | src/types/index.ts:21-25 | two balance records equal on every currency are the same record |
| Types.NewWallet | src/contexts/WalletContext.tsx:51-61 | a fresh wallet has zero balances in all currencies, no transactions, and the given address, phrase and key |
| Storage.KeyValueStore.constructor | src/services/WalletService.ts:42 | the store starts with the given entries and write behaviour |
| Storage.KeyValueStore.Get | src/services/WalletService.ts:62 | `getItem` finds a value exactly when the key is present, and returns that value |
| Storage.KeyValueStore.SetItem | src/services/WalletService.ts:42 | succeeds exactly when the store is writable, then overwrites only that key; otherwise changes nothing |
| Storage.KeyValueStore.RemoveItem | src/services/WalletService.ts:86 | succeeds exactly when writable, then deletes only that key; otherwise changes nothing |
| JsText.TrimStart | src/screens/LoginScreen.tsx:96 | the result is a suffix, the removed prefix is all whitespace, and the result does not start with whitespace |
| JsText.TrimEnd | src/screens/LoginScreen.tsx:96 | the result is a prefix, the removed suffix is all whitespace, and the result does not end with whitespace |
| JsText.TrimStartSkipsSpace | src/services/WalletService.ts:148 | whitespace in front of a text does not change its start-trimmed form |
| JsText.TrimEmptyIffBlank | src/screens/LoginScreen.tsx:96 | `!s.trim()` holds exactly when s is made of whitespace only |
| JsText.ToLower | src/screens/LoginScreen.tsx:134 | same length, each character lowered on its own |
| JsText.TrimLower | src/screens/LoginScreen.tsx:134 | lowering then trimming equals trimming then lowering |
| JsText.Substring | src/services/WalletService.ts:99 | never longer than the input; within bounds the slice between the smaller and larger index; a negative start reads from 0, an end past the length reads to the end, and bounds both below 0 or both past the end give the empty string |
| JsText.SubstringSwap | src/services/WalletService.ts:99 | swapping the two bounds gives the same text |
| JsText.SubstringClamps | src/services/WalletService.ts:99 | each bound acts as its clamp to 0..length |
| JsText.SubstringFrom | src/services/WalletService.ts:99 | within bounds the suffix from start; a negative start gives the whole string |
| JsText.IndexOf | src/screens/LoginScreen.tsx:99-100 | absent exactly when the character does not occur; otherwise the position of its first occurrence |
| JsText.Split | src/services/WalletService.ts:142 | at least one piece, and no piece contains the separator |
| JsText.SplitAtFirst | src/services/WalletService.ts:142 | the first piece is the text before the first separator, the rest is the split of what follows |
| JsText.SplitJoin | src/services/WalletService.ts:142 | joining the pieces of a split with its separator gives back the text |
| JsText.JoinSplit | src/services/WalletService.ts:142 | splitting pieces joined with a separator none of them holds gives back the pieces |
| JsNumber.ParseFloat | src/services/WalletService.ts:148 | a parsed number has only digits in its parts and at least one digit |
| JsNumber.ParseFloatSkipsAndStops | src/services/WalletService.ts:148 | leading whitespace, then a rendered number, then text that cannot continue it, parses back to that number |
| JsNumber.ParseRender | src/services/WalletService.ts:128-148 | `parseFloat` reads back exactly the decimal that `${amount}` wrote |
| JsNumber.ParseNumberOfRender | src/screens/BankTransferScreen.tsx:143-146 | parsing the text of a rendered number gives its value |
| JsNumber.ParseNumber | src/screens/BankTransferScreen.tsx:85 | `NaN` exactly when the text does not start with a numeral; otherwise the numeral's value |
| JsNumber.ParseNumberIgnoresLeadingSpace | src/screens/BankTransferScreen.tsx:85 | whitespace in front of the text does not change the parsed value |
| JsNumber.RenderHasNoQuerySeparator | src/services/WalletService.ts:128 | a rendered number contains none of `?`, `&`, `=`, `+`, `%` |
| JsNumber.Round | src/screens/SpendingAnalyticsScreen.tsx:157 | `Math.round(x)` is within one half of x, halves rounded up |
| JsNumber.RoundCents | src/screens/SpendingAnalyticsScreen.tsx:131 | a whole number of cents within (x - 0.005, x + 0.005]: the one nearest value, halves rounded up |
| JsNumber.MathMin | src/screens/SpendingGoalsScreen.tsx:156 | the result is one of the arguments and at most both |
| JsNumber.MathMax | src/screens/BankTransferScreen.tsx:144 | the result is one of the arguments and at least both |
| WalletService.ValidateMnemonic | src/services/WalletService.ts:15-22 | true exactly when the BIP-39 check returns true; a throwing check counts as false |
| WalletService.GetWalletFromMnemonic | src/services/WalletService.ts:24-37 | an invalid phrase is rejected as invalid before derivation; success exactly when valid and derivable, with the derived account |
| WalletService.WalletWrites | src/services/WalletService.ts:39-52 | the wallet record is always written; phrase and key only when present and non-empty; no other key |
| WalletService.PerformAll | src/services/WalletService.ts:53 | on a writable store every write lands, later ones winning; otherwise none does |
| WalletService.SecurelyStoreWallet | src/services/WalletService.ts:39-58 | succeeds exactly when the store is writable, and then the store holds all the wallet writes; on failure nothing changes |
| WalletService.GetStoredWallet | src/services/WalletService.ts:60-71 | a wallet exactly when `pma_wallet` holds a wallet record, and then that record |
| WalletService.ClearWalletData | src/services/WalletService.ts:82-94 | a writable store loses exactly the three wallet keys and has no stored wallet; otherwise nothing changes |
| WalletService.StoreThenLoad | src/services/WalletService.ts:39-71 | on a writable store, storing then loading gives the same wallet back |
| WalletService.FormatAddress | src/services/WalletService.ts:96-100 | "" for "", short addresses unchanged, longer ones as first six, "...", last four |
| WalletService.GenerateQRCodeData | src/services/WalletService.ts:120-132 | an invalid address is rejected; without a non-zero amount and a currency the URI is `ethereum:` plus the address; otherwise the amount and currency query is appended |
| WalletService.DecodeComponent | src/services/WalletService.ts:146-148 | same length; no `+` is left; every other character is kept; a position holds a space exactly when the input had a space or `+` there |
| WalletService.QueryGet | src/services/WalletService.ts:146-153 | absent exactly when no pair has the name |
| WalletService.QueryGetIsFirstMatch | src/services/WalletService.ts:146-153 | a found value is the value of the first pair with that name |
| WalletService.ParseQrQuery | src/services/WalletService.ts:146-153 | the query the generator writes parses to exactly the amount and currency pairs |
| WalletService.ParseUriWithQuery | src/services/WalletService.ts:141-156 | an `ethereum:` URI with one `?` yields the address before it and the parameters after it, when the address is valid |
| WalletService.ParseQRCodeData | src/services/WalletService.ts:134-169 | any result carries a valid address; a plain text is accepted exactly when it is a valid address |
| WalletService.QrRoundTrip | src/services/WalletService.ts:120-157 | for a valid address, a non-zero amount and a currency, parsing the generated URI gives back the address, the amount and the currency |
| WalletService.QrRoundTripAddressOnly | src/services/WalletService.ts:120-162 | a URI generated without parameters parses back to the bare address |
| WalletService.RestoreWalletFromBackup | src/services/WalletService.ts:188-226 | restores exactly when the backup parses, has phrase and address, the phrase is valid and derives that address; then a fresh wallet; every failure is the one restore error |
| WalletService.CalculateTransactionFee | src/services/WalletService.ts:243-260 | the exact fee: 0.0005 for AECoin and 0.001 otherwise, up to 1000; 0.0006 and 0.0012 above it |
| WalletService.AECoinFeeIsHalf | src/services/WalletService.ts:249-255 | at the same amount, AECoin pays half the fee of the other currencies |
| BlockchainService.PlaceholderIsAECoin | src/services/BlockchainService.ts:41-45 | only the AECoin contract address is the zero placeholder |
| BlockchainService.EventRecord | src/services/BlockchainService.ts:121-132 | the record of a Transfer event is confirmed, has the hash as id and tx hash, and the event's amount, kind, currency and time |
| BlockchainService.InsertNewest | src/services/BlockchainService.ts:159 | inserting keeps the list sorted newest first and adds exactly the new record |
| BlockchainService.SortNewestFirst | src/services/BlockchainService.ts:159 | the result is sorted newest first and is a permutation of the input |
| BlockchainService.InsertNewestStable | src/services/BlockchainService.ts:159 | an inserted record goes in front of the records with the same timestamp |
| BlockchainService.SortNewestFirstStable | src/services/BlockchainService.ts:159 | records with equal timestamps keep their input order |
| BlockchainService.ChainGateway.constructor | src/services/BlockchainService.ts:27-28 | no provider and no signer before initialisation |
| BlockchainService.ChainGateway.InitializeWallet | src/services/BlockchainService.ts:30-33 | the provider is ready and the signer is the given account |
| BlockchainService.ChainGateway.GetBalance | src/services/BlockchainService.ts:35-57 | 0 without a provider or for the placeholder; otherwise the contract's balance, 0 on error |
| BlockchainService.ChainGateway.SendTransaction | src/services/BlockchainService.ts:59-90 | fails without a signer; mock hash for the placeholder; otherwise the transfer's hash exactly when it succeeds |
| BlockchainService.ChainGateway.GetTransactionHistory | src/services/BlockchainService.ts:92-164 | the loop's result equals the history function of the gateway |
| BlockchainService.ChainGateway.GetTransactionStatus | src/services/BlockchainService.ts:166-183 | pending exactly with a provider and no receipt; confirmed exactly with receipt status 1 |
| BlockchainService.PushEventRecords | src/services/BlockchainService.ts:116-133 | the loop appends exactly the records of the events that carry arguments |
| BlockchainService.CollectHistoryFailureSticks | src/services/BlockchainService.ts:160-163 | once any query fails, the whole collection fails |
| BlockchainService.EventRecordsFacts | src/services/BlockchainService.ts:121-153 | every event record is confirmed, of the given currency, with id equal to its hash |
| BlockchainService.CollectHistoryFacts | src/services/BlockchainService.ts:101-155 | every collected record is a confirmed record of a real contract whose id is its hash |
| BlockchainService.HistoryFacts | src/services/BlockchainService.ts:92-164 | the history is sorted newest first, every record is confirmed and not AECoin, and a failed query gives the empty history |
| WalletContext.PhraseToUse | src/contexts/WalletContext.tsx:41-50 | a given non-empty phrase is used, otherwise the generated one |
| WalletContext.SentRecord | src/contexts/WalletContext.tsx:175-185 | the prepended record is a pending send with the hash as id and the sender, recipient, amount and currency |
| WalletContext.SentWallet | src/contexts/WalletContext.tsx:192-202 | only the sent currency's balance drops, by exactly the amount; the list becomes the updated one |
| WalletContext.SendCanOverdraw | src/contexts/WalletContext.tsx:192-202 | sending more than the balance leaves it negative |
| WalletContext.WalletSession.constructor | src/contexts/WalletContext.tsx:16-19 | no wallet, no transactions, not created, not loading |
| WalletContext.WalletSession.LoadTransactions | src/contexts/WalletContext.tsx:244-251 | the list becomes the gateway's history; nothing else changes |
| WalletContext.WalletSession.CheckExistingWallet | src/contexts/WalletContext.tsx:26-39 | a stored wallet is adopted with its history loaded; otherwise the state stays empty |
| WalletContext.WalletSession.CreateWallet | src/contexts/WalletContext.tsx:41-80 | succeeds exactly when the phrase derives and the store is writable, giving a fresh wallet for it; on failure nothing changes |
| WalletContext.WalletSession.ImportWallet | src/contexts/WalletContext.tsx:82-126 | an invalid phrase is rejected with nothing changed; succeeds exactly when valid, derivable and stored |
| WalletContext.WalletSession.GetBalance | src/contexts/WalletContext.tsx:128-153 | without a wallet an error and no change; otherwise that currency alone becomes the fetched balance, and the wallet record is rewritten exactly when the store is writable |
| WalletContext.WalletSession.SendTransaction | src/contexts/WalletContext.tsx:155-211 | without a wallet an error and no change; on a failed transfer the wallet is unchanged; on success the pending record goes first and the balance drops by the amount |
| WalletContext.WalletSession.RefreshWallet | src/contexts/WalletContext.tsx:213-242 | nothing without a wallet; on a writable store all three balances are fetched, the wallet record is written and the list becomes the history; on an unwritable one only USDT is set in memory and the store and list are unchanged |
| WalletContext.WalletSession.FetchBalances | src/contexts/WalletContext.tsx:216-222 | on a writable store all three balances, set on the wallet and written; otherwise none, with only USDT set in memory and the store unchanged |
| AuthContext.Merge | src/contexts/AuthContext.tsx:59 | for each of the eleven fields: the patch value when the patch has one, otherwise the user's own |
| AuthContext.MergeEmpty | src/contexts/AuthContext.tsx:55-66 | an empty patch keeps the user |
| AuthContext.MergeIdempotent | src/contexts/AuthContext.tsx:55-66 | applying a patch twice is applying it once |
| AuthContext.MergeThen | src/contexts/AuthContext.tsx:55-66 | two updates in a row are one update with the combined patch |
| AuthContext.AuthSession.constructor | src/contexts/AuthContext.tsx:12-13 | no user and not authenticated |
| AuthContext.AuthSession.CheckAuthState | src/contexts/AuthContext.tsx:20-31 | a stored user record is adopted; otherwise no user |
| AuthContext.AuthSession.Login | src/contexts/AuthContext.tsx:33-42 | signs in exactly when the user record could be stored |
| AuthContext.AuthSession.Logout | src/contexts/AuthContext.tsx:44-53 | signs out and removes the record exactly when the delete succeeds |
| AuthContext.AuthSession.UpdateUser | src/contexts/AuthContext.tsx:55-66 | no-op without a user; otherwise the merged user is stored and adopted exactly when the write succeeds |
| UserDirectory.ParseUsers | src/screens/LoginScreen.tsx:125-130 | absent or empty gives the empty list; a stored list is returned; any other value fails |
| UserDirectory.SameEmailMeansTrimmedCaseless | src/screens/LoginScreen.tsx:134 | the comparison ignores case on both sides and whitespace around the typed address |
| UserDirectory.SameEmailReflexive | src/screens/SignupScreen.tsx:78-80 | an address the registration form accepts matches itself |
| UserDirectory.FindFirst | src/screens/LoginScreen.tsx:133-136 | `findIndex`: absent exactly when no element passes; otherwise the first that passes |
| UserDirectory.FindUser | src/screens/LoginScreen.tsx:133-136 | the first record with the typed e-mail and exactly the typed password, or none when no record matches |
| UserDirectory.FindFirstAppended | src/screens/LoginScreen.tsx:133-136 | an element appended after failing elements is the first to pass |
| UserDirectory.HasEmail | src/screens/SignupScreen.tsx:78-80 | true exactly when some stored user has the typed e-mail |
| UserDirectory.FreshEmailMatchesNone | src/screens/LoginScreen.tsx:133-136 | without a user of that e-mail no record matches, whatever the password |
| UserDirectory.AppendedUserIsFound | src/screens/SignupScreen.tsx:115-116 | an appended user with a fresh e-mail is the record sign-in finds |
| UserDirectory.RegisteredUserSignsIn | src/screens/SignupScreen.tsx:115-116 | a user registered with a fresh, well-formed e-mail is exactly the record sign-in finds |
| Patterns.IsDomain | src/screens/LoginScreen.tsx:99-100 | the check accepts exactly the texts the domain part of the pattern matches |
| Patterns.IsEmail | src/screens/SignupScreen.tsx:142-143 | the check accepts exactly the texts the e-mail regular expression matches |
| Patterns.FirstAtSplits | src/screens/LoginScreen.tsx:99-100 | only the first `@` can split a matching address |
| Patterns.EmailHasNoSpace | src/screens/LoginScreen.tsx:99-100 | an accepted address contains no whitespace |
| Patterns.TrimKeepsEmail | src/screens/LoginScreen.tsx:99-100 | trimming leaves an accepted address unchanged |
| Patterns.StripMobileSeparators | src/screens/SignupScreen.tsx:161 | the result keeps exactly the characters that are not separators |
| Patterns.StripAppend | src/screens/SignupScreen.tsx:161 | stripping distributes over concatenation |
| Patterns.IsMobileNumber | src/screens/SignupScreen.tsx:161-162 | an accepted number holds only digits, `+` and separators, with 8 to 16 characters left after stripping |
| Patterns.MobileIgnoresSeparator | src/screens/SignupScreen.tsx:161-162 | inserting a separator anywhere does not change the verdict |
| Login.EmailErrorOf | src/screens/LoginScreen.tsx:96-103 | "required" exactly for blank input, "invalid" exactly when the trimmed text does not match, none otherwise |
| Login.PasswordErrorOf | src/screens/LoginScreen.tsx:106-110 | "required" exactly for "", "too short" exactly below six characters, none otherwise |
| Login.FormAccepted | src/screens/LoginScreen.tsx:92-114 | no error is recorded exactly when the form is acceptable |
| Login.LoginScreen.constructor | src/screens/LoginScreen.tsx:40-49 | empty form, not remembered, no errors, loading the saved credentials |
| Login.LoginScreen.LoadSavedCredentials | src/screens/LoginScreen.tsx:55-73 | a saved record with its flag set fills the form; anything else leaves it alone; loading ends |
| Login.SavedCredentials | src/screens/LoginScreen.tsx:75-90 | the credentials record is present exactly when "remember me" is set, and then holds the form's email and password with the flag set; every other entry is unchanged |
| Login.LoginScreen.SaveCredentials | src/screens/LoginScreen.tsx:75-90 | remembered credentials are stored, otherwise deleted; a failing store changes nothing |
| Login.LoginScreen.UpdateFormData | src/screens/LoginScreen.tsx:185-198 | sets that field and clears that field's error only |
| Login.LoginScreen.ValidateForm | src/screens/LoginScreen.tsx:92-114 | records the field errors of the form and reports whether there are none, which by `Login.FormAccepted` is exactly when the form is acceptable |
| Login.LoginScreen.SignIn | src/screens/LoginScreen.tsx:151-157 | on a writable store saves the credentials and signs in; otherwise an error and nothing changes |
| Login.AttemptLogin | src/screens/LoginScreen.tsx:123-164 | the sign-in attempt never reports an invalid form, changes the session only when it signs in, and then signs in the user it reports |
| Login.NoMatchIffNoRecord | src/screens/LoginScreen.tsx:133-148 | "invalid email or password" exactly when the stored list parses and no record has the typed e-mail with exactly the typed password |
| Login.SignedInWithFirstMatch | src/screens/LoginScreen.tsx:133-157 | a successful sign-in is with the user of the first matching record, on a writable store, with the credentials saved or forgotten and the session user written |
| Login.MatchOnWritableStoreSignsIn | src/screens/LoginScreen.tsx:133-157 | a matching record on a writable store always leads to a sign-in |
| Login.LoginScreen.Authenticate | src/screens/LoginScreen.tsx:123-164 | the outcome and the new session are those of `Login.AttemptLogin` on the session before the call |
| Login.LoginScreen.SubmitLogin | src/screens/LoginScreen.tsx:116-148 | the loading flag ends lowered, and outcome and session are those of the sign-in attempt on the session it started from |
| Login.LoginScreen.HandleLogin | src/screens/LoginScreen.tsx:116-171 | rejects exactly when the form has an error, and then touches neither the session nor the loading flag; otherwise the outcome and session are those of `Login.AttemptLogin` and loading ends |
| Signup.RequiredFields | src/screens/SignupScreen.tsx:132-139 | nine fields, among them e-mail, password and mobile; one is empty exactly when first or last name, birth date, street, city, mobile, e-mail, password or confirmation is empty |
| Signup.OptionalFieldsNotRequired | src/screens/SignupScreen.tsx:132-139 | the middle name and the state never decide whether a field is missing |
| Signup.ValidateForm | src/screens/SignupScreen.tsx:131-168 | each error exactly when all earlier checks pass and its own fails; none exactly when all pass |
| Signup.AcceptedFormPassesLogin | src/screens/SignupScreen.tsx:142-150 | an accepted registration passes the sign-in form's checks |
| Signup.RegionOf | src/screens/SignupScreen.tsx:100 | West Bank exactly for "west-bank" |
| Signup.NewUser | src/screens/SignupScreen.tsx:91-106 | the user record carries the form's fields, the region, the id and times, and no wallet address |
| Signup.RegisteredCanSignIn | src/screens/SignupScreen.tsx:115-119 | a completed registration can sign in at once with the same e-mail and password |
| Signup.AppendAndSignIn | src/screens/SignupScreen.tsx:114-119 | on a writable store appends the record to the users list and signs the user in; otherwise nothing changes |
| Signup.HandleSignup | src/screens/SignupScreen.tsx:60-129 | rejects exactly on a form error; a duplicate e-mail writes nothing; success appends the user, signs in and leaves a wallet |
| Home.TotalBalance | src/screens/HomeScreen.tsx:44-47 | 0 without a wallet, otherwise the sum of the three balances |
| Home.TotalAfterSend | src/screens/HomeScreen.tsx:44-47 | after a send the total drops by exactly the amount |
| Home.FormatAddress | src/screens/HomeScreen.tsx:56-58 | first six characters, "...", last four, with no guard for short input |
| Home.ShortenersAgreeOnLongAddresses | src/screens/HomeScreen.tsx:56-58 | the screen's and the service's shorteners agree exactly on addresses longer than ten characters |
| Home.RecentTransactions | src/screens/HomeScreen.tsx:60-62 | the first three transactions, or all when fewer |
| Home.SentShowsFirst | src/screens/HomeScreen.tsx:60-62 | a just-sent transaction is the first recent one |
| Home.AmountSign | src/screens/HomeScreen.tsx:315 | "-" exactly for sends, "+" for every other kind |
| AnalyticsService.Where | src/services/AnalyticsService.ts:16-18 | the kept records are exactly those that pass the filter |
| AnalyticsService.SumAppend | src/services/AnalyticsService.ts:110 | the amount sum distributes over concatenation |
| AnalyticsService.WhereAppend | src/services/AnalyticsService.ts:16-18 | filtering distributes over concatenation |
| AnalyticsService.SumOfOne | src/services/AnalyticsService.ts:124-127 | a one-record list sums to its amount when kept, to 0 otherwise |
| AnalyticsService.SumWhereAtMost | src/services/AnalyticsService.ts:124-127 | with non-negative amounts a filtered sum lies between 0 and the whole sum |
| AnalyticsService.SumNonNegative | src/services/AnalyticsService.ts:46 | non-negative amounts have a non-negative sum |
| AnalyticsService.SumWhereDisjointUnion | src/services/AnalyticsService.ts:107-115 | two filters that never both keep a record split the sum of their union |
| AnalyticsService.Spending | src/services/AnalyticsService.ts:16-18 | exactly the confirmed sends and bank transfers |
| AnalyticsService.MonthSpendingAppend | src/services/AnalyticsService.ts:122-139 | month totals add up over concatenated lists |
| AnalyticsService.MonthSpendingOutsideMonth | src/services/AnalyticsService.ts:122-139 | a list with no record in the month has zero month total |
| AnalyticsService.MonthSpendingBounds | src/services/AnalyticsService.ts:122-139 | with non-negative amounts a month's spending lies between 0 and the total; a month with no records spends 0 |
| AnalyticsService.CurrentMonthSpendingBounds | src/services/AnalyticsService.ts:122-128 | this month's spending lies between 0 and the total with non-negative amounts, and is 0 when no record is from this month |
| AnalyticsService.LastMonthSpendingBounds | src/services/AnalyticsService.ts:130-139 | last month's spending (December of the previous year in January) lies between 0 and the total with non-negative amounts, and is 0 when no record is from that month |
| AnalyticsService.TwoMonthsWithinTotal | src/services/AnalyticsService.ts:122-139 | with non-negative amounts this month's and last month's spending together do not exceed the total |
| AnalyticsService.PrevMonth | src/services/AnalyticsService.ts:130-139 | the previous month, January going to December of the year before |
| AnalyticsService.ShiftMonth | src/screens/SpendingAnalyticsScreen.tsx:119 | a valid month exactly k months from the given one |
| AnalyticsService.PrevMonthIsShift | src/screens/SpendingAnalyticsScreen.tsx:119 | the service's "last month" agrees with the screen's date arithmetic |
| AnalyticsService.MonthIndexInjective | src/screens/SpendingAnalyticsScreen.tsx:119 | valid months with the same month index are the same month |
| AnalyticsService.LastMonthOfJanuary | src/services/AnalyticsService.ts:132-133 | in January, last month is December of the previous year |
| AnalyticsService.HighSpendingExcludesGoodControl | src/services/AnalyticsService.ts:34-43 | the high-spending and good-control insights never occur together |
| AnalyticsService.SingleCurrency | src/services/AnalyticsService.ts:58-67 | one distinct currency exactly when every record has the first one's currency |
| AnalyticsService.AssembleFacts | src/services/AnalyticsService.ts:30-80 | the list holds exactly the insights whose rules hold, and nothing else |
| AnalyticsService.AssembleOrder | src/services/AnalyticsService.ts:30-80 | the insights appear in the order the rules are checked |
| AnalyticsService.GenerateInsights | src/services/AnalyticsService.ts:14-81 | exactly 'no-data' without spending; otherwise each of the four insights exactly when its rule holds, nothing else, in rule order |
| AnalyticsService.DaysInMonth | src/services/AnalyticsService.ts:90 | under 30 days exactly for February, 29 exactly in leap years; 30 exactly for April, June, September and November; 31 otherwise |
| AnalyticsService.YearLength | src/services/AnalyticsService.ts:90 | the twelve month lengths add up to 366 in leap years and 365 otherwise |
| AnalyticsService.PredictMonthlySpending | src/services/AnalyticsService.ts:83-96 | the projection times the day equals this month's spending times the month length |
| AnalyticsService.PredictionOnLastDay | src/services/AnalyticsService.ts:83-96 | on the last day of the month the projection is the spending so far |
| AnalyticsService.PredictionAtLeastSoFar | src/services/AnalyticsService.ts:83-96 | with non-negative amounts the projection is at least the spending so far |
| AnalyticsService.GetSpendingTrend | src/services/AnalyticsService.ts:98-120 | up exactly above 110% of the previous window, down exactly below 90% when not up, stable otherwise |
| AnalyticsService.TrendWindowsPartition | src/services/AnalyticsService.ts:104-115 | the two windows never share a record, so they add up to the span's spending |
| AnalyticsService.EqualWindowsAreStable | src/services/AnalyticsService.ts:117-119 | equal non-negative spending in both windows is stable |
| SpendingGoals.CategorySpending | src/screens/SpendingGoalsScreen.tsx:76-90 | only the two spending categories appear as keys |
| SpendingGoals.CategorySpendingIsSum | src/screens/SpendingGoalsScreen.tsx:76-90 | each category's amount is the sum of this month's counted records in it |
| SpendingGoals.SpentOn | src/screens/SpendingGoalsScreen.tsx:155 | the category's tally when it has one, otherwise 0 |
| SpendingGoals.ProgressColor | src/screens/SpendingGoalsScreen.tsx:139-144 | red from 100% of the budget, orange from 80%, teal below |
| SpendingGoals.PercentageScale | src/screens/SpendingGoalsScreen.tsx:139-144 | the percentage thresholds are the budget thresholds |
| SpendingGoals.RenderGoalCard | src/screens/SpendingGoalsScreen.tsx:154-158 | under budget the progress is spent/budget as a percentage and the remainder is budget minus spent; progress capped at 100 and reached exactly at the budget; remaining never negative; over budget exactly above it |
| SpendingGoals.OverallProgress | src/screens/SpendingGoalsScreen.tsx:223-226 | 0 without a budget, otherwise spent over budget in percent |
| SpendingGoals.TotalBudgetPositive | src/screens/SpendingGoalsScreen.tsx:224 | goals with positive budgets have a positive total exactly when there is one |
| SpendingGoals.TotalBudget | src/screens/SpendingGoalsScreen.tsx:224 | with positive budgets the total is positive exactly when there is a goal |
| SpendingGoals.TotalBudgetAppend | src/screens/SpendingGoalsScreen.tsx:224 | adding a goal adds its budget to the total |
| SpendingGoals.TotalSpent | src/screens/SpendingGoalsScreen.tsx:225 | non-negative with a non-negative tally; 0 when no goal's category has spending |
| SpendingGoals.TotalSpentAppend | src/screens/SpendingGoalsScreen.tsx:225 | adding a goal adds what was spent on its category |
| SpendingGoals.WithoutId | src/screens/SpendingGoalsScreen.tsx:131 | keeps exactly the goals with another id |
| SpendingGoals.WithoutIdAppend | src/screens/SpendingGoalsScreen.tsx:131 | deleting distributes over concatenation, so order is kept |
| SpendingGoals.WithoutAbsentId | src/screens/SpendingGoalsScreen.tsx:131 | deleting an id no goal has changes nothing |
| SpendingGoals.GoalsBoard.constructor | src/screens/SpendingGoalsScreen.tsx:43-68 | the three sample goals and an empty, hidden form |
| SpendingGoals.GoalFormError | src/screens/SpendingGoalsScreen.tsx:94-103 | the missing-fields error exactly when category or budget is blank; then the invalid-budget error exactly when the budget is not a positive number; no error leaves a positive budget |
| SpendingGoals.AppendKeepsPositive | src/screens/SpendingGoalsScreen.tsx:115 | appending a goal with a positive budget keeps every budget on the board positive |
| SpendingGoals.GoalsBoard.AddNewGoal | src/screens/SpendingGoalsScreen.tsx:93-119 | the missing-fields error exactly when category or budget is blank; blank fields or a non-positive budget leave everything unchanged; otherwise the goal is appended with this month's spending and the form reset |
| SpendingGoals.GoalsBoard.DeleteGoal | src/screens/SpendingGoalsScreen.tsx:121-137 | drops exactly the goals with that id and nothing else changes |
| SpendingAnalytics.AddTo | src/screens/SpendingAnalyticsScreen.tsx:83-91 | an existing key keeps its place and a new key goes last; only that key's amount grows, by the amount |
| SpendingAnalytics.Tally | src/screens/SpendingAnalyticsScreen.tsx:83-91 | distinct keys, exactly the records' keys, empty exactly for no records |
| SpendingAnalytics.TallyIsSum | src/screens/SpendingAnalyticsScreen.tsx:83-91 | each key's value is the sum of the records with that key |
| SpendingAnalytics.TallyTotal | src/screens/SpendingAnalyticsScreen.tsx:83-91 | the values add up to the sum of all records |
| SpendingAnalytics.ReduceInKeys | src/screens/SpendingAnalyticsScreen.tsx:93-99 | the reduction ends on one of the keys, or on the initial key when that is a tally key |
| SpendingAnalytics.ReduceMaximal | src/screens/SpendingAnalyticsScreen.tsx:93-99 | no key has a larger value than the result, and every key a smaller one when the result is the initial key from outside the list |
| SpendingAnalytics.ReduceLaterSmaller | src/screens/SpendingAnalyticsScreen.tsx:93-99 | every key after the result has a smaller value: ties go to the later key |
| SpendingAnalytics.ReduceInvariant | src/screens/SpendingAnalyticsScreen.tsx:93-99 | the running key has the largest value seen, ties going to the later key |
| SpendingAnalytics.Reduce | src/screens/SpendingAnalyticsScreen.tsx:93-99 | the result is the initial key or one of the keys; over some keys it stays the initial key only when that key is tallied or listed |
| SpendingAnalytics.TopKey | src/screens/SpendingAnalyticsScreen.tsx:93-99 | the default for no keys; otherwise a key with the largest value, no later key equalling it |
| SpendingAnalytics.MonthlyChange | src/screens/SpendingAnalyticsScreen.tsx:80 | 0 without last month's spending, otherwise the percentage change |
| SpendingAnalytics.ComputeSpendingData | src/screens/SpendingAnalyticsScreen.tsx:60-110 | totals, month sums and count over the spending records; the change is MonthlyChange of the two month sums; the top category and currency are the tallies' largest keys (ties going to the later key), with their defaults when there is no spending |
| SpendingAnalytics.TopCategoryIsMaximal | src/screens/SpendingAnalyticsScreen.tsx:93-95 | no category has a larger total than the top one |
| SpendingAnalytics.TopCurrencyIsMaximal | src/screens/SpendingAnalyticsScreen.tsx:96-98 | no currency has a larger total than the top one |
| SpendingAnalytics.AverageTransaction | src/screens/SpendingAnalyticsScreen.tsx:354 | none exactly when nothing was spent; otherwise the average times the count is the total |
| SpendingAnalytics.AverageIsDefined | src/screens/SpendingAnalyticsScreen.tsx:354 | computed spending data with a positive total has a positive count |
| SpendingAnalytics.MonthlySpendingData | src/screens/SpendingAnalyticsScreen.tsx:113-135 | the six months ending now, oldest first, each with its label and its spending rounded to cents |
| SpendingAnalytics.CategorySpendingData | src/screens/SpendingAnalyticsScreen.tsx:138-161 | one slice per category in order of first appearance, with that category's name and the palette colour of its position |
| SpendingAnalytics.CategorySliceShare | src/screens/SpendingAnalyticsScreen.tsx:147-157 | each slice's population is `Math.round(amount / total * 100)` with the total of all spending, and 0 when nothing was spent |
| SpendingAnalytics.CategorySliceCountIs | src/screens/SpendingAnalyticsScreen.tsx:152-155 | each slice's count is the number of spending records in its category |
| SpendingAnalytics.PopulationBounds | src/screens/SpendingAnalyticsScreen.tsx:157 | a rounded share of a positive total lies between 0 and 100 |
| SpendingAnalytics.CategorySliceAmount | src/screens/SpendingAnalyticsScreen.tsx:139-149 | each slice's amount is the sum of its records |
| SpendingAnalytics.CategorySlicePopulation | src/screens/SpendingAnalyticsScreen.tsx:157 | with non-negative amounts each slice's population is a percentage from 0 to 100 |
| SpendingAnalytics.CategorySliceCount | src/screens/SpendingAnalyticsScreen.tsx:152-155 | every slice counts at least one record |
| SpendingAnalytics.CurrencyLabel | src/screens/SpendingAnalyticsScreen.tsx:164-174 | every label is a currency symbol and its value the sum for that currency |
| SpendingAnalytics.CurrencyBreakdown | src/screens/SpendingAnalyticsScreen.tsx:164-174 | one label per currency in order of first appearance; each value is that currency's spending sum rounded to cents |
| BankTransfer.CurrentBalance | src/screens/BankTransferScreen.tsx:128-130 | 0 without a wallet, otherwise that currency's balance |
| BankTransfer.ValidateAmount | src/screens/BankTransferScreen.tsx:79-103 | no error exactly for an empty field or a number at least the minimum and (with a wallet) within the balance; not-positive exactly for a non-number or an amount at or below 0; insufficient exactly when above the balance; below-minimum exactly when positive, under the minimum and within the balance |
| BankTransfer.InsufficientBeforeMinimum | src/screens/BankTransferScreen.tsx:92-100 | an amount over the balance and under the minimum is reported as insufficient |
| BankTransfer.ValidateBankAccount | src/screens/BankTransferScreen.tsx:105-119 | each error exactly when the earlier fields are filled and its own is blank |
| BankTransfer.MaxAmount | src/screens/BankTransferScreen.tsx:143-146 | the balance minus the fee, or 0 when the fee is not covered |
| BankTransfer.WithField | src/screens/BankTransferScreen.tsx:206-211 | sets one field and keeps every other |
| BankTransfer.TransferForm.constructor | src/screens/BankTransferScreen.tsx:41-56 | no amount, USDT, the route's account or the default one |
| BankTransfer.TransferForm.CanTransfer | src/screens/BankTransferScreen.tsx:132-141 | allowed only with a wallet, a complete account, no amount error and amount plus fee covered |
| BankTransfer.TransferForm.CanTransferMeetsMinimum | src/screens/BankTransferScreen.tsx:97-100 | an allowed transfer moves at least the minimum and the fee is covered |
| BankTransfer.TransferForm.SetAmount | src/screens/BankTransferScreen.tsx:75-77 | the amount changes and its error is revalidated |
| BankTransfer.TransferForm.SelectCurrency | src/screens/BankTransferScreen.tsx:75-77 | the currency changes and the amount is revalidated |
| BankTransfer.TransferForm.HandleMaxAmount | src/screens/BankTransferScreen.tsx:143-146 | the amount becomes the text of the maximum transferable amount |
| BankTransfer.TransferForm.UpdateBankAccount | src/screens/BankTransferScreen.tsx:206-211 | only that account field changes |
| BankTransfer.TransferForm.LoadSavedBankAccount | src/screens/BankTransferScreen.tsx:213-216 | the saved account is loaded and recognised as loaded |
| BankTransfer.MaxAmountIsTransferable | src/screens/BankTransferScreen.tsx:79-146 | with enough balance and a complete account, the maximum amount passes validation and can be transferred |

## Left out

- Promise scheduling: every async operation runs sequentially. `Promise.all`'s concurrent writes, the stale `wallet` closure inside `refreshWallet`, and React re-renders between state updates are not modelled.
- Cryptography and network: BIP-39 validation and generation, HD derivation, `ethers.isAddress`, ERC-20 calls, event queries and receipts are parameters. The unit conversion of `formatUnits` is inside the parameter.
- Logging, alerts, navigation, haptics, the `setTimeout` mock of `confirmTransfer`/`handleTransfer` in the bank-transfer screen, and every message text.
- `getStoredMnemonic`, `backupWallet`, `linkWalletToUser`, `generateWalletName` and `generateWalletId`: storage reads, JSON formatting, clock and random values with no decision in them.
- `formatBalance`, `formatCurrency`, `toFixed` and `Intl` formatting: number display only.
- `estimateGasPrice`, `estimateGas` and `getCurrentGasPrice`: random or network values.
- NotificationService: it is not part of this model.
- Floating point: amounts are exact reals, so float rounding of sums and of `* 1.1` or `* 0.9` is not captured.
- `parseFloat` forms with an exponent, `Infinity` or `NaN` text, and numbers rendered in exponent form (at or above 1e21 or below 1e-6).
- Percent-decoding in `URLSearchParams` (only `+` is decoded). A `?` inside the address part of a QR URI is also left out.
- `PMAColors.gold` is undefined, so the third pie colour is `undefined`. The model keeps that as a missing colour.
- The goal card shows the category's live monthly spending, not the goal's stored `spent`. The model follows this.
- Registration calls `createWallet` with no phrase, so a generated one is used. A failure after the wallet is created leaves that wallet in place, and the model keeps this.
- JsText.ToLower: only ASCII capitals are lowered; Unicode case mapping and UTF-16 lengths are not modelled.
- Patterns.IsMobileNumber: states what an accepted number consists of and its digit count after stripping, not the converse.
- SpendingGoals.RenderGoalCard: requires a positive budget. Every goal on the board has one; a zero budget gives `Infinity` or `NaN` in the source.
- SpendingAnalytics.AverageTransaction: requires that a positive total comes with a positive count. AverageIsDefined proves this for every computed summary.
- AnalyticsService.PrevMonth: requires a valid month (0 to 11), as `Date.getMonth` always gives.
- AnalyticsService.DaysInMonth: requires a valid month (0 to 11), as `Date.getMonth` always gives.
- Storage.KeyValueStore: a stored value is one of the records the app writes or plain text that holds no record. Other JSON text (`null`, a number, an object with other fields) is not represented, so the model cannot show `checkAuthState` adopting such a value as the signed-in user, as `JSON.parse` lets it do.
- Storage.KeyValueStore: one `writable` flag per store, fixed for the whole run. A write therefore cannot fail after an earlier write to the same store succeeded, and partial failures are not modelled: `createWallet`'s second write, or only some of `securelyStoreWallet`'s writes.
- SpendingGoals.SpentOn: categories are map keys. In the source the tally is a plain object, so a category named like an `Object.prototype` member (`constructor`, `toString`) reads that member; the spent figure becomes `NaN` or a string instead of a number.
- WalletService.ParseQRCodeData: the `ethereum:` branch is stated through ParseUriWithQuery and QrRoundTrip rather than in its own contract.
