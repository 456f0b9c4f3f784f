# Gold Flux ledger and accounts, in Dafny

A model of the core of the Gold Flux API, a Django service for buying and
selling gold against a cash wallet. It covers these parts of the service:

- **The wallet ledger.** Every user who signs up gets one wallet, holding cash
  (`balance`) and gold (`gold_holdings`). Gold prices are published as an
  append-only series, and the newest entry is the current price.
- **Orders.** A market order buys or sells at the current price and is logged
  `EXECUTED`. A limit or stop order is logged `PENDING` and leaves the wallet
  alone.
- **Valuation and alerts.** A portfolio snapshot values a wallet at the current
  price. The alert view's `destroy` only deactivates an alert. The view's
  class accepts no DELETE, though, so that code cannot be reached over HTTP.
- **Admin approvals.** Administrators approve or reject deposit requests,
  withdrawal requests and gold locks. Only pending requests can be found, so a
  decision is final.
- **Accounts.** Signup checks that the username and then the email are free,
  and creates the user together with an empty wallet. Login validates its form
  and, when authentication fails, tells an unknown account from a wrong
  password.

Money and gold are exact `real` numbers. Each view is one atomic method on a
`Store.Database` object, whose fields are the tables. A view either answers an
error and changes nothing, or performs all of its writes.

Each method is proved against a pure function of the old state (`PlaceOrder`,
`Snapshot`, `Deactivate`, `ReviewDeposit`, `ReviewWithdrawal`,
`ReviewGoldLock`, `SignupCheck`). Each method also keeps the database
invariant `Database.Valid()`:

- every user owns exactly one wallet, and no wallet is negative (this covers
  only users made by signup; see "Left out");
- usernames are unique, and so are non-empty emails;
- prices are not negative;
- every request belongs to a user and asks for a positive amount.

The files:

| file | what it holds |
|---|---|
| `common.dfy` | identifiers, the clock, and `Option` and `Result` |
| `accounts_models.dfy` | the `User` and `Wallet` tables |
| `investments_models.dfy` | the investment tables: choices, defaults, decimal places, orderings, the current price, the news feed |
| `store.dfy` | the database class and its invariant |
| `accounts_serializers.dfy` | the login form and the writable user fields |
| `accounts_views.dfy` | signup and login |
| `investments_views.dfy` | orders, snapshots, alerts, prices and the three approval views |
| `ledger_properties.dfy` | properties across operations, and the worked examples |

Three behaviours of the code are worth knowing:

- **A second approval.** The approve views look a request up in a queryset
  that holds only pending requests. So approving a request that has already
  been decided answers "not found" (`NotFound`); there is no separate
  invalid-state error.
- **A non-admin approval.** That queryset is empty for a caller who is not an
  administrator. So their approval attempt also answers `NotFound`, not
  `Forbidden`.
- **Order amounts.** No view checks that an order amount is positive. The
  model makes a positive amount a precondition instead.

## Model

| member | source | states |
|---|---|---|
| AccountModels.NewUser | accounts/models.py:6-7 | A created user has the given id, username and email. It is active and neither staff nor admin, since `is_admin` defaults to false. |
| AccountModels.NewWallet | accounts/models.py:12-15 | A new wallet belongs to its user and starts with 0 cash and 0 gold, so it is solvent. |
| AccountSerializers.TrimStart | accounts/serializers.py:20-21 | The result is the suffix of the input that starts at the first non-whitespace character. Everything cut off is whitespace. |
| AccountSerializers.TrimEnd | accounts/serializers.py:20-21 | The result is the prefix of the input that ends at the last non-whitespace character. Everything cut off is whitespace. |
| AccountSerializers.Trim | accounts/serializers.py:20-21 | The trimmed text neither starts nor ends with whitespace, where whitespace is every character `str.isspace` accepts, including U+001C to U+001F. It is empty exactly when the input is all whitespace. It is the middle of the input: a contiguous part of it, with only whitespace cut off before and after. |
| AccountSerializers.NulSurvivesTrim | accounts/serializers.py:20-21 | The text holds NUL exactly when its trimmed form does, so the NUL check sees every NUL that was sent. |
| AccountSerializers.TrimOfTrimmed | accounts/serializers.py:20-21 | Text without surrounding whitespace is unchanged by trimming. |
| AccountSerializers.TrimIdempotent | accounts/serializers.py:20-21 | Trimming twice gives the same result as trimming once. |
| AccountSerializers.CleanCharField | accounts/serializers.py:20-21 | An absent field gives "required" and null gives "not null", each exactly in that case. Whitespace-only text gives "blank". Other text is refused exactly when its trimmed form is over `max_length` or it holds NUL, and then with every validator message that applies, in order. Otherwise the field yields the trimmed text, which is non-empty, within the limit and free of NUL. |
| AccountSerializers.CleanFieldAccepted | accounts/serializers.py:20-21 | Text that trims to something within the limit and holds no NUL is accepted as its trimmed form. |
| AccountSerializers.CleanTrimmedField | accounts/serializers.py:20-21 | Non-empty text without surrounding whitespace or NUL, within the limit, passes the field unchanged. |
| AccountSerializers.SeparatorsAreBlank | accounts/serializers.py:20 | A username made only of U+001C and U+001F is refused as blank. |
| AccountSerializers.NulIsRefused | accounts/serializers.py:20 | The username "a", NUL, "b" is refused with the NUL message alone. |
| AccountSerializers.Validate | accounts/serializers.py:23-30 | Accepts exactly when the username and the password are both present and non-empty. It then returns its input unchanged. Otherwise it refuses with the "credentials required" error. |
| AccountSerializers.CleanLogin | accounts/serializers.py:19-30 | The form is accepted exactly when both fields are clean. It yields the trimmed username (at most 150 characters) and the trimmed password (at most 128), neither holding NUL. On refusal it reports each field's own error. |
| AccountSerializers.ValidateAfterFields | accounts/serializers.py:23-30 | `validate` accepts every pair of non-empty values the fields let through, so it never refuses after the field checks pass. |
| AccountSerializers.LoginAccepted | accounts/serializers.py:19-30 | A username and a password that trim to non-empty text within their limits, and hold no NUL, are accepted, trimmed. |
| AccountSerializers.WritableUserData | accounts/serializers.py:10-16 | Keeps exactly the known fields that are not read-only, with their values. These are at most `username` and `email`. |
| AccountSerializers.ApplyUserData | accounts/serializers.py:10-16 | Saving a body through the user serializer can change only the username and the email. The id, `is_active`, `is_staff` and `is_admin` stay as they were. |
| Store.Database.Valid | accounts/models.py:12-13 | In a valid database every user owns one wallet, keyed by the user and owned by them, and no wallet is negative. Usernames are unique, and so are non-empty emails. |
| AccountViews.SignupCheck | accounts/views.py:20-30 | A taken username is reported first. Otherwise a taken email is reported. Otherwise a missing or empty username is reported. Each error occurs exactly under its condition. Success implies no user has that username, or that email when one is given. |
| AccountViews.Signup | accounts/views.py:18-31 | On a refused check it returns that error and changes nothing. Otherwise it stores one user (active, no roles) under a fresh id and one empty wallet for them, and nothing else. It keeps `Valid()`: one wallet per user, unique usernames, unique non-empty emails. |
| AccountViews.Lower | accounts/views.py:73-75 | The case-folded string has the same length and no ASCII capital. Each character is folded on its own, and every character that is not a capital stays as it was. |
| AccountViews.LowerIdempotent | accounts/views.py:73-75 | Folding case twice gives the same string as folding it once. |
| AccountViews.MatchingUsers | accounts/views.py:73-75 | The users whose username or email equals the given name, ignoring case, and no others. |
| AccountViews.StatusCode | accounts/views.py:46-84 | A login answers 200, 400 for a refused form, 401 for both failure messages, and 500 for an uncaught exception, one code per answer. |
| AccountViews.ClassifyFailureAsWritten | accounts/views.py:71-84 | As written: "User not found" exactly when no user matches. "Invalid password" exactly when one user matches. A server error exactly when more than one user matches. |
| AccountViews.ClassifyFailure | accounts/views.py:71-84 | As intended: "User not found" exactly when no user matches, otherwise "Invalid password". Either way the status is 401. |
| AccountViews.ClassificationsAgree | accounts/views.py:71-84 | With at most one matching user, the written and the intended classification give the same answer. |
| AccountViews.Login | accounts/views.py:46-84 | A refused form answers 400 with the form's errors. An authenticated user logs in. A failed authentication is classified as intended. The login never answers 500. |
| AccountViews.LoginAsWritten | accounts/views.py:46-84 | Equals `Login` except after a failed authentication, where the written classification is used. |
| AccountViews.CaseVariantsBothMatch | accounts/views.py:71-84 | Users "Bob" and "bob" have distinct usernames, and the name "bob" matches both. |
| AccountViews.CaseVariantsLogin | accounts/views.py:71-84 | With users "Bob" and "bob", a wrong password for "bob" gets a server error as written. The intended answer is "Invalid password". |
| AccountViews.CaseVariantSignupsBreakLogin | accounts/views.py:71-84 | Signing up "Bob" and then "bob" both succeed. The next wrong-password login for "bob" answers 500 as written, where 401 is intended. |
| InvestmentModels.TransactionTypeCode | investments/models.py:15-27 | Each transaction type's code is non-empty and fits the column's 4 characters. |
| InvestmentModels.ParseTransactionType | investments/models.py:15-18 | Reading a code back gives the type whose code it is, and only that type. Any other string reads as `None`. |
| InvestmentModels.OrderTypeCode | investments/models.py:20-28 | Each order type's code is non-empty and fits the column's 6 characters. |
| InvestmentModels.ParseOrderType | investments/models.py:20-24 | Reading a code back gives the order type whose code it is, and only that type. Any other string reads as `None`. |
| InvestmentModels.TransactionStatusCode | investments/models.py:35-39 | Each transaction status code is non-empty and fits the column's 10 characters. |
| InvestmentModels.Latest | investments/views.py:39-42 | The current price is `None` exactly for an empty series. Otherwise it is an entry of the series with the greatest timestamp. |
| InvestmentModels.LatestOfAppend | investments/models.py:4-9 | A price appended with a timestamp no earlier than any other becomes the current price. |
| InvestmentModels.HeadIsLatest | investments/models.py:8-9 | In the declared newest-first order, the head of the series has the current timestamp. |
| InvestmentModels.NewPriceAlert | investments/models.py:62-71 | A new alert keeps its owner, target, type and creation time. It is active and has never triggered. |
| InvestmentModels.LatestNews | investments/views.py:140-141 | The feed holds the first `min(10, n)` items of the newest-first table, in order. No item left out was published after an item shown. |
| InvestmentModels.CurrencyCode | investments/models.py:105-113 | Each currency code is non-empty and fits the column's 4 characters. |
| InvestmentModels.RequestStatusCode | investments/models.py:155-167 | Each request status code is non-empty and fits the column's 10 characters. |
| InvestmentModels.NewFundRequest | investments/models.py:98-118 | A new deposit or withdrawal request keeps its owner, amount, currency and txid. It is pending, its status is among the deposit and withdrawal choices, and it is undecided. |
| InvestmentModels.NewGoldLock | investments/models.py:154-171 | A new gold lock keeps its owner, amount, dates and rate. It is pending, not matured and undecided. |
| InvestmentViews.HasPermission | investments/views.py:17-21 | Every caller, signed in or not, may use the safe methods GET, HEAD and OPTIONS. An anonymous caller may use exactly those. Any other method is allowed only to an administrator, and an administrator may use every method. |
| InvestmentViews.FundApprovalQueryset | investments/views.py:223-226 | An approval view finds a deposit or withdrawal exactly when the caller is an admin and the request is pending. A non-admin finds nothing. |
| InvestmentViews.LockApprovalQueryset | investments/views.py:296-299 | The gold-lock approval view finds a lock exactly when the caller is an admin and the lock is pending. A non-admin finds nothing. |
| InvestmentViews.ActiveAlerts | investments/views.py:127-128 | The alerts listed for a user are exactly that user's active alerts. |
| InvestmentViews.Snapshot | investments/views.py:108-118 | Records the cash, gold, price and date. The gold value is holdings times price, and the total is cash plus gold value, which is the wallet's net worth. For a solvent wallet and a non-negative price, all values are non-negative and the total is at least the cash. |
| InvestmentViews.RequestedOrderType | investments/views.py:34 | An absent `order_type` means MARKET, the column's default. Otherwise the given code is used. |
| InvestmentViews.Settle | investments/views.py:48-64 | A market order fails exactly on a shortfall: a BUY costing more than the cash, or a SELL of more gold than is held. A BUY fails with "insufficient balance", a SELL with "insufficient gold holdings". A BUY moves the cash by -cost and the gold by +amount, and a SELL moves them by +value and -amount. Any other type leaves the wallet as it is. The wallet keeps its owner. For a non-negative amount and value, a solvent wallet stays solvent. |
| InvestmentViews.SettleAsWritten | investments/views.py:49-62 | As written, a market order succeeds only when its type is neither BUY nor SELL, and then the wallet is unchanged. |
| InvestmentViews.SettleAsWrittenNeverTrades | investments/views.py:49-62 | As written, an order is refused wherever `Settle` refuses it, with the same error. Every BUY or SELL that `Settle` performs fails with a server error instead. |
| InvestmentViews.PlaceOrder | investments/views.py:47-86 | A market order settles at amount times price, or fails with the error `Settle` gives. On success it is logged EXECUTED at the current price, with no limit or stop price. Any other order type leaves the wallet and is logged PENDING with its limit and stop prices. Either way the log entry records the user, the type, the order type, the amount, the current price and the time. |
| InvestmentViews.CreateTransaction | investments/views.py:30-89 | With no published price it answers "no gold price" and changes nothing. If `PlaceOrder` fails it returns that error and changes nothing. Otherwise it writes the settled wallet and appends exactly that transaction. It keeps `Valid()`, so no wallet becomes negative. |
| InvestmentViews.CreateSnapshot | investments/views.py:98-121 | With no published price it answers "no gold price" and changes nothing. Otherwise it appends the snapshot of the wallet at the current price and does not touch the wallet. |
| InvestmentViews.Deactivate | investments/views.py:130-134 | Keeps every alert row and clears only that alert's `isActive`. The alert drops out of its owner's active alerts and out of no one else's. |
| InvestmentViews.DestroyAlert | investments/views.py:127-134 | The `destroy` method as written: an alert that is not one of the caller's active alerts is not found, and nothing changes. Otherwise the alert is deactivated, never removed. Over HTTP this method is never reached (see "Left out"). |
| InvestmentViews.CreateGoldPrice | investments/views.py:143-148 | The caller is the stored user. The permission class at lines 17-21 refuses a write by an anonymous or non-admin caller, and nothing changes. Otherwise the price is appended, and with a monotone clock it becomes the current price. |
| InvestmentViews.DecideFund | investments/views.py:234-237 | Sets the status, approver and decision time. Keeps the owner, amount, currency, txid and creation time. |
| InvestmentViews.DecideLock | investments/views.py:313-316 | Sets the status, approver and decision time. Keeps the owner, amount, dates, rate, matured flag and creation time. |
| InvestmentViews.ReviewDeposit | investments/views.py:233-249 | "approve" marks the deposit approved and adds its amount to the cash. "reject" marks it rejected and leaves the wallet. Any other action changes nothing. For a non-negative amount, a solvent wallet stays solvent. |
| InvestmentViews.ReviewWithdrawal | investments/views.py:268-287 | It fails exactly when "approve" meets cash below the amount, with "insufficient balance". A successful approval marks the request approved and takes the amount from the cash. "reject" marks it rejected. Any other action changes nothing. Solvency is kept. |
| InvestmentViews.ReviewGoldLock | investments/views.py:306-325 | It fails exactly when "approve" meets gold below the amount, with "insufficient gold holdings". A successful approval marks the lock approved and takes the amount from the gold. "reject" marks it rejected. Any other action changes nothing. Solvency is kept. |
| InvestmentViews.ApproveDeposit | investments/views.py:219-252 | A deposit outside the caller's approval queryset is not found, and nothing changes. Otherwise the view writes exactly the request and wallet `ReviewDeposit` gives, and keeps `Valid()`. |
| InvestmentViews.ApproveWithdrawal | investments/views.py:254-290 | A withdrawal outside the caller's approval queryset is not found, and nothing changes. If `ReviewWithdrawal` fails, its error is returned and nothing changes, so the request stays pending. Otherwise the view writes exactly its request and wallet. |
| InvestmentViews.ApproveGoldLock | investments/views.py:292-328 | A lock outside the caller's approval queryset is not found, and nothing changes. If `ReviewGoldLock` fails, its error is returned and nothing changes, so the lock stays pending. Otherwise the view writes exactly its lock and wallet. |
| LedgerProperties.BuyThenSellRestores | investments/views.py:49-62 | For a solvent wallet, selling back what was just bought at the same price restores the wallet exactly. |
| LedgerProperties.SellThenBuyRestores | investments/views.py:49-62 | For a solvent wallet, buying back what was just sold at the same price restores the wallet exactly. |
| LedgerProperties.SettleKeepsNetWorth | investments/views.py:49-62 | A market order leaves the wallet's worth at the trade price unchanged. |
| LedgerProperties.PlaceOrderKeepsNetWorth | investments/views.py:47-86 | Any order accepted by the view leaves the wallet's worth at the current price unchanged. |
| LedgerProperties.DepositRaisesNetWorth | investments/views.py:233-243 | An approved deposit raises the wallet's worth by exactly its amount, at any price. |
| LedgerProperties.WithdrawalLowersNetWorth | investments/views.py:268-281 | An approved withdrawal lowers the wallet's worth by exactly its amount, at any price. |
| LedgerProperties.GoldLockLowersNetWorth | investments/views.py:306-319 | An approved gold lock lowers the wallet's worth by the locked amount times the price. |
| LedgerProperties.FundDecisionIsFinal | investments/views.py:223-226 | An approved or rejected deposit or withdrawal is in no caller's approval queryset. |
| LedgerProperties.LockDecisionIsFinal | investments/views.py:296-299 | An approved or rejected gold lock is in no caller's approval queryset. |
| LedgerProperties.DecideDepositTwice | investments/views.py:219-252 | Once approving or rejecting a deposit succeeds, a second attempt on it is not found. |
| LedgerProperties.DecideWithdrawalTwice | investments/views.py:254-290 | Once approving or rejecting a withdrawal succeeds, a second attempt on it is not found. |
| LedgerProperties.DecideGoldLockTwice | investments/views.py:292-328 | Once approving or rejecting a gold lock succeeds, a second attempt on it is not found. |
| LedgerProperties.BuyExample | investments/views.py:49-55 | Cash 1000.00 and gold 0, buying 10 at 50.00, gives cash 500.00 and gold 10. The order is EXECUTED at 50.00. |
| LedgerProperties.BuyExampleAsWritten | investments/views.py:50-55 | The same buy succeeds under `Settle` but fails with a server error as written. |
| LedgerProperties.SellExample | investments/views.py:57-62 | Cash 500.00 and gold 10, selling 10 at 60.00, gives cash 1100.00 and gold 0. |
| LedgerProperties.RefusedBuyExample | investments/views.py:50-52 | Buying 5 at 50.00 with only 100.00 cash is refused with "insufficient balance". |
| LedgerProperties.RefusedWithdrawalExample | investments/views.py:268-273 | Approving a 200.00 withdrawal against 100.00 cash is refused with "insufficient balance". |
| LedgerProperties.GoldLockExample | investments/views.py:306-319 | Approving a lock of 5 gold against 5 gold empties the holdings and approves the lock. |

## Left out

- Float arithmetic. The `float(...)` casts at investments/views.py:50, 55, 58, 61-62 and 108-109, and float rounding, are not modelled. Money and gold are exact reals.
- Storage rounding. Rounding to 2 or 4 decimal places and the `max_digits` limits are not modelled. The decimal places appear only as constants.
- CreateTransaction: writes the wallet that `Settle` computes, which is the intended behaviour. The code as written fails with a `TypeError` instead; see Findings.
- CreateTransaction: requires a positive order amount. The view never checks the amount. A missing or non-numeric amount makes `float(...)` raise, and that is not modelled.
- CreateTransaction: the transaction type is always a string. A request with no `transaction_type` is not modelled. In the running system its `Transaction` row fails the NOT NULL column with an `IntegrityError`, and the request answers 500. So `ParseTransactionType` and `ParseOrderType` are used only by their own round-trip contracts.
- CreateGoldPrice: requires a non-negative price, which the price serializer does not check. The database invariant relies on it, so that a SELL never lowers the cash.
- Database.Valid: requires every user to own a wallet, and every operation requires `Valid()`. The one-to-one field at accounts/models.py:13 only allows at most one wallet per user. Only `SignupView` creates a wallet, so users created another way have none: a superuser, a user made on the admin site, or one made by `create_user` in a script such as debug_auth.py:32. For such a user, creating a transaction or a snapshot, and approving one of their requests, fails with a server error. The model does not capture that.
- Database.Valid: no modelled view sets `is_admin`, so administrators are created outside the model. A valid database may hold them, but no modelled operation makes one.
- DestroyAlert: models `PriceAlertView.destroy` (investments/views.py:130-134) as written. The view is a `ListCreateAPIView`, which answers only GET and POST. So a DELETE on `user/price-alerts/<int:pk>/` (investments/urls.py:19) answers 405, and the alert stays active. The HTTP dispatch is not modelled.
- Database.Valid: requires every deposit, withdrawal and lock to have a positive amount. The request-creation views (`User*ListCreateView`) are not modelled, and they check nothing.
- RequestedOrderType: an `order_type` sent as JSON null is treated like an absent one.
- Concurrency. There are no interleavings and no row locking. Each atomic view is one sequential method.
- Authentication. `authenticate` is a parameter of `Login`, so credential checking is not modelled. This covers password hashing and inactive users.
- Signup: the password is not modelled, and neither are the JWT tokens issued on signup and login.
- Signup: a missing or empty username is reported as `UsernameRequired`. In the running system `create_user` raises here, and the request fails with a server error.
- Signup: the username and email are stored as given. `create_user`'s Unicode normalisation of the username and lower-casing of the email domain are not modelled. So the model's unique non-empty emails hold only up to that normalisation.
- Signup: the exact username check assumes a case-sensitive database collation.
- Lower: case folding covers ASCII letters only. Database `iexact` on other scripts is not modelled.
- CleanCharField: only text values are modelled. A JSON number sent in a login field, which the field turns into text, and the "invalid" refusal of other JSON types are not modelled.
- Debugging output. The `print` calls are not modelled.
- The clock. `timezone.now()` and `auto_now_add` timestamps are parameters.
- HTTP statuses are modelled only for login (`StatusCode`). The investment views answer an `ApiError` or a value.
- Gold-lock maturation and the matching of limit and stop orders are not modelled, because the code has neither. `Matured` is a status choice that nothing sets.
- Read-only list views are not modelled. These are the user and admin list views, `UserProfileView` and the serializers' output format. The news feed is modelled as `LatestNews`.
- investments/serializers.py, the URL tables and the admin registration are not modelled. They hold declarations only.

## Findings

| source | as written | input that shows it | evidently intended | confidence | as-written member | corrected member |
|---|---|---|---|---|---|---|
| accounts/views.py:71-84 | After a failed authentication, the account lookup uses `get`. `get` raises `MultipleObjectsReturned` when two users match the name ignoring case, and only `DoesNotExist` is caught. | Users "Bob" and "bob" both pass the case-sensitive signup check. A login as "bob" with a wrong password then answers 500. | Answer 401 "Invalid password" whenever some account matches. | high; not executed | AccountViews.ClassifyFailureAsWritten | AccountViews.ClassifyFailure |
| investments/views.py:49-62 | A market BUY or SELL adds or subtracts a float to or from a Decimal wallet column (`balance -= cost`, `gold_holdings -= float(amount)`). Python refuses this with `TypeError`, so every trade that passes its guard fails and is rolled back. | Wallet with 1000.00 cash and 0 gold, price 50.00, market BUY of 10: a server error, and the wallet is unchanged. | Cash 500.00 and gold 10, with the order EXECUTED. | high; not executed | InvestmentViews.SettleAsWritten | InvestmentViews.Settle |

The as-written login is shown by `AccountViews.CaseVariantSignupsBreakLogin`, which signs the two users up and logs in. The intended classification is proved in `AccountViews.Login` (never 500). The as-written settlement is related to `Settle` by `InvestmentViews.SettleAsWrittenNeverTrades` and shown on the buy example by `LedgerProperties.BuyExampleAsWritten`. The rest of the model uses `Settle`, and `LedgerProperties.SettleKeepsNetWorth` and `LedgerProperties.BuyThenSellRestores` are proved about it.
