# GoCart storefront core, modelled in Dafny

This project models the core of the GoCart storefront and its admin area, a Next.js shop that takes payments as Bakong KHQR codes and notifies the shop over Telegram. The model covers:

- **Bakong payments**: the server-side payment check with its chain of guards (`check_payment.dfy`), the process-wide access-token cache and the KHQR argument defaults (`bakong.dfy`), the bill-number and expiry generator (`generate_khqr.dfy`), and the payment dialog's countdown and polling (`qr_modal.dfy`).
- **Admin one-time codes**: the send and verify routes over the code table, with cooldown, lockout and single use (`admin_otp.dfy`), and the admin layout's client gate with its digit boxes and cooldowns (`admin_layout.dfy`).
- **Storefront state**: the cart slice and the quantity stepper (`cart_slice.dfy`, `counter.dfy`), the auth and product slices (`auth_slice.dfy`, `product_slice.dfy`), the product tile and product page (`product_card.dfy`, `product_details.dfy`), and the "Latest Products" and "Best Selling" strips (`product_selection.dfy`, `latest_products.dfy`, `best_selling.dfy`).
- **Admin orders**: confirming, delivering and cancelling orders with their stock arithmetic, and the details dialog (`admin_orders.dfy`, `order_details.dfy`). Also the add-product form (`add_product.dfy`).
- **Routing and notification**: the order notification route (`telegram_route.dfy`), the Telegram check script with its `.env` parser (`telegram_debug.dfy`), the sign-in callback (`auth_callback.dfy`) and the admin middleware (`admin_middleware.dfy`).

Code the source writes as expressions is modelled as functions and lemmas. State the source updates in place is a class whose methods are proved against those functions: the cart and auth and product stores, the token cache, the code table, the admin gate and its dialogs, the orders page, the payment dialog, the notifier and the product form. Loops the source runs (the stock loops, the photo collection, the `.env` parser, `setCart`'s sum) are `while` loops with invariants. `common.dfy` holds `Option`, the JavaScript string operations the core relies on (`String(n)`, `padStart`, `split`, `join`, `trim`, `includes`), and their laws.

Databases, HTTP calls, e-mail, timers and the clock are parameters: a clock reading is an integer number of milliseconds, and each database or network call is given as its result or as the set of calls that fail.

A few things the code does that a reader may not expect:

- The token cache serves a token while `now < expiresAt`, and `expiresAt` is set 60 seconds before the token's stated lifetime ends. The lookup compares the clock with `expiresAt` as stored.
- A resend inside the cooldown can report `waitSeconds` 0, when the previous code is exactly 60 s old, because the lookup includes that instant. It can even report a negative wait: the window is computed from one clock reading and the wait from a second one, taken after the query has returned.
- The notification route ignores the error of the update that marks an order "failed": if it fails, the order stays "pending" although the customer got a 500.
- verify-otp ignores the errors of its updates. If marking a code used fails, the request still succeeds and the code can be used again.
- The code e-mail says the code is valid for 10 minutes, but codes expire after 5.
- The payment dialog's poll restarts whenever the parent passes a new `onConfirm` function. After a confirming poll, a re-render with a fresh handler polls again, and the same payment can be confirmed twice.
- Nothing in the code marks an order paid after a QR payment.

## Model

| member | source | states |
|---|---|---|
| Common.NatToString | app/api/bakong/generate-khqr/route.js:22 | `String(n)` is a non-empty digit string without a leading zero |
| Common.NatToStringRoundTrip | app/api/bakong/generate-khqr/route.js:22 | reading `String(n)` back as decimal gives n |
| Common.NatToStringLength | app/api/bakong/generate-khqr/route.js:22 | `String(n)` has exactly k characters for a k-digit number |
| Common.PadStart | app/api/bakong/generate-khqr/route.js:22-25 | `padStart` reaches the width or keeps a longer text whole, the text ends the result and only fill characters precede it |
| Common.PaddedValue | app/api/bakong/generate-khqr/route.js:22-25 | zero-padding `String(n)` keeps a digit string that denotes n |
| Common.IndexOf | test-telegram.js:20 | the index found holds the first occurrence of the character, or is the length when there is none |
| Common.ContainsIff | app/api/bakong/check-payment/route.js:155 | `includes` holds exactly when the text occurs at some position |
| Common.Split | test-telegram.js:19-20 | `split` gives at least one piece and no piece holds the separator |
| Common.SplitFirst | test-telegram.js:20 | the first piece is everything before the first separator |
| Common.SplitJoin | components/admin/AdminLayout.jsx:375-377 | joining the pieces of a split with the same separator gives the text back |
| Common.JoinSplit | app/api/telegram/route.js:24-26 | splitting a join of pieces without the separator gives the pieces back |
| Common.Trim | app/api/telegram/route.js:15-16 | the trimmed text is a slice of the original with only white space before and after it, and it neither begins nor ends with white space, so only leading and trailing white space is removed |
| Common.TrimStart | app/api/telegram/route.js:38 | only leading white space is removed, up to the first other character |
| Common.TrimEnd | app/api/telegram/route.js:38 | only trailing white space is removed, back to the last other character |
| Common.TrimEndDropsSpaces | app/api/telegram/route.js:38 | trailing white space after a last character that is not white space is removed and nothing else |
| CheckPayment.StripTrailingSlash | app/api/bakong/check-payment/route.js:18-21 | at most one trailing slash is dropped from the base URL, and one is dropped exactly when the URL ends in a slash |
| CheckPayment.UpstreamRequest | app/api/bakong/check-payment/route.js:36-55 | the request goes to the base URL followed by the check path and carries the bearer token |
| CheckPayment.Decide | app/api/bakong/check-payment/route.js:57-124 | every reply that arrived is answered with status 200; a success always comes from a success-shaped reply and returns its transaction and hash |
| CheckPayment.Classify | app/api/bakong/check-payment/route.js:125-177 | a thrown upstream call ends as "transaction not found", an HTML block page or an internal error |
| CheckPayment.Check | app/api/bakong/check-payment/route.js:5-177 | the status is 200, 400, 500 or 502; a request body that does not parse is the 500 "Internal error checking payment" carrying the parse error's message; a success needs a parsed body with an md5, a token, an upstream reply, the expected recipient and a transaction that is not stale |
| CheckPayment.MissingMd5BeforeAnyCall | app/api/bakong/check-payment/route.js:14-16 | an empty md5 is a 400 whatever the token fetch and the upstream call would have produced |
| CheckPayment.AuthFailureStopsCheck | app/api/bakong/check-payment/route.js:24-34 | a failed token fetch is a 500 "Bakong Auth Failed" and the upstream result is never used |
| CheckPayment.SuccessIff | app/api/bakong/check-payment/route.js:61-113 | the payment is confirmed if and only if the md5 is given, auth works, the reply is success-shaped, the recipient matches and the transaction is not stale |
| CheckPayment.NonSuccessShapeMessage | app/api/bakong/check-payment/route.js:114-124 | a reply without response code 0 and a hash is not a success, and its message is the upstream one or the default text |
| CheckPayment.RecipientCheckedFirst | app/api/bakong/check-payment/route.js:64-75 | a transaction addressed to another account is refused whatever the generation time |
| CheckPayment.StaleIff | app/api/bakong/check-payment/route.js:77-92 | the stale guard fires exactly when a non-zero generation time is known and the transaction is more than five seconds older |
| CheckPayment.StaleBoundary | app/api/bakong/check-payment/route.js:79 | a transaction exactly five seconds old is accepted and one 5001 ms older is refused |
| CheckPayment.AmountNeverRejects | app/api/bakong/check-payment/route.js:98-105 | the expected amount never changes the outcome |
| CheckPayment.ErrorClassification | app/api/bakong/check-payment/route.js:143-176 | an upstream 404 is a normal "not found", an HTML marker gives 502 and any other failure gives 500 |
| CheckPayment.HtmlMarkerAnywhere | app/api/bakong/check-payment/route.js:153-156 | the HTML marker is recognised anywhere in the body |
| CheckPayment.CheckUrlOneSlash | app/api/bakong/check-payment/route.js:21-36 | a configured base URL ending in one slash yields a check URL without a double slash |
| Bakong.TokenCall | lib/bakong.js:52-121 | a hit at the clock reading taken when the call starts asks nothing of the network; a new expiry is counted from the second reading, taken after the exchange; an error leaves the cache as it was; the cache changes only after a request whose exchange succeeded; a returned token is never empty |
| Bakong.TokenCache.constructor | lib/bakong.js:5-9 | the cache starts with no token, no cookies and expiry 0 |
| Bakong.TokenCache.GetToken | lib/bakong.js:52-121 | the token or error returned, whether the network was asked, and the new cache are exactly those of the token call on the old cache |
| Bakong.TokenCache.GetAuth | lib/bakong.js:123-126 | the token is returned with the cookies the cache holds after the call, and errors pass through |
| Bakong.StaticTokenBypassesCache | lib/bakong.js:53-56 | a static token is returned as is, with no request and the cache untouched |
| Bakong.CacheHitIff | lib/bakong.js:58-61 | without a static token, the cached token is served without a request if and only if one is held and `now < expiresAt`; an expired cache with settings present asks the network |
| Bakong.MissingConfigThrows | lib/bakong.js:66-75 | a miss with a setting missing throws a message naming each missing setting, with no request and the cache unchanged |
| Bakong.SuccessfulExchangeStores | lib/bakong.js:97-110 | a successful exchange stores the token and cookies and sets the expiry to `(expires_in - 60) * 1000` ms after the clock reading taken once the exchange has returned, where `expires_in` defaults to 3600 |
| Bakong.FailedExchangeKeepsCache | lib/bakong.js:111-120 | a failed or thrown exchange is an error and leaves the cache as it was |
| Bakong.ShortLifetimeAlwaysRefetches | lib/bakong.js:102-108 | a provider lifetime of at most 60 s stores a token that is already expired, so every call made after the exchange has returned asks the network again |
| Bakong.TokenReusedUntilExpiry | lib/bakong.js:58-61 | after a successful exchange, any call strictly before the expiry is served from the cache without a request |
| Bakong.StaticTokenCookies | lib/bakong.js:123-126 | with a static token in a fresh process the cookies are null |
| Bakong.CurrencyOf | lib/bakong.js:25-26 | only the exact string "KHR" selects riel |
| Bakong.KhqrArguments | lib/bakong.js:14-33 | absent arguments take their defaults: bill number "", expiry five minutes from now, currency KHR, amount 0, terminal label "Online Payment", category 5999 |
| GenerateKhqr.OrderNumber | app/api/bakong/generate-khqr/route.js:20 | the next order number is at least 1, and 1 when the count is null |
| GenerateKhqr.BillNumberRoundTrip | app/api/bakong/generate-khqr/route.js:22-25 | every bill number `BillNumber` builds reads back to the order number and timestamp it was built from, so distinct pairs give distinct bill numbers |
| GenerateKhqr.PaddingNeverTruncates | app/api/bakong/generate-khqr/route.js:22-25 | padding to five digits never truncates: the order number appears in full, with zeros in front only when it is shorter than five digits |
| GenerateKhqr.LongOrderNumbersUnpadded | app/api/bakong/generate-khqr/route.js:22-25 | an order number of 100000 or more is used unpadded |
| GenerateKhqr.Generate | app/api/bakong/generate-khqr/route.js:5-58 | a failed count, an unparsable body or a library call that returns null data gives the 500 with that error's message, checked in that order; otherwise the response carries the library's QR and hash, the bill number comes from the count and the first clock reading and is passed to the library, and the expiry is five minutes after the second reading |
| GenerateKhqr.ExpirationAfterGeneration | app/api/bakong/generate-khqr/route.js:21-28 | in a successful response the expiry is at least five minutes after the generation time |
| GenerateKhqr.RequestDefaults | app/api/bakong/generate-khqr/route.js:30-38 | a falsy amount is sent as 0 and a missing currency as "KHR" (riel), and the library sees the bill number built from the count and the expiry five minutes after the second clock reading |
| GenerateKhqr.FirstBillNumber | app/api/bakong/generate-khqr/route.js:20-25 | the first order of an empty or uncounted table is "ORDER_00001_" followed by the timestamp |
| QrModal.TimeLeft | components/BakongQRModal.jsx:42-46 | the time left is the whole number of seconds until the expiry, and 0 once less than a second remains |
| QrModal.TimeLeftNeverGrows | components/BakongQRModal.jsx:42-46 | a later clock reading never shows more time left |
| QrModal.CountdownStart | components/BakongQRModal.jsx:35-48 | the time left is null exactly when the dialog is closed or has no expiry, and otherwise the seconds to the expiry |
| QrModal.OverlayExcludesPolling | components/BakongQRModal.jsx:62-122 | the "QR Expired" overlay and the payment poll never both run, an open dialog with an md5 has exactly one of them, and a closed dialog has neither |
| QrModal.SecondsWidth | components/BakongQRModal.jsx:126-131 | the seconds part of the displayed time is always two digits |
| QrModal.FormatTimeRoundTrip | components/BakongQRModal.jsx:126-131 | the displayed time `FormatTime` gives determines the time: reading it back with `ParseTime` gives the same seconds, or null for "--:--" |
| QrModal.PollDecision | components/BakongQRModal.jsx:84-115 | a poll confirms only a reply the server sent, and hands on the md5 of the dialog |
| QrModal.FallbackTrustsResponseCode | components/BakongQRModal.jsx:86-109 | on the client-side path a Bakong response code 0 alone confirms, whatever the server's own verdict |
| QrModal.IncompleteFallbackUsesSuccess | components/BakongQRModal.jsx:87-115 | a fallback request without a token or URL is ignored, and the server's `success` decides |
| QrModal.RouteConfirmationIff | components/BakongQRModal.jsx:111-115 | polling the check route confirms exactly the transactions the route confirms, and passes the transaction on |
| QrModal.PaymentModal.constructor | components/BakongQRModal.jsx:35-122 | on mount the time left is the countdown start, the countdown runs unless expired, and polling runs exactly under its condition |
| QrModal.PaymentModal.SetProps | components/BakongQRModal.jsx:35-122 | the countdown restarts only when open or expiry changed, the poll only when open, md5, the `onConfirm` callback or the expired flag changed; otherwise both keep their state |
| QrModal.PaymentModal.Tick | components/BakongQRModal.jsx:51-56 | a tick recomputes the time left, stops the countdown at 0, and then stops the poll too |
| QrModal.PaymentModal.Poll | components/BakongQRModal.jsx:65-119 | a confirming poll stops the interval and records one `onConfirm` call; any other leaves everything unchanged |
| QrModal.RerenderConfirmsTwice | components/BakongQRModal.jsx:62-122 | after a confirming poll, a new `onConfirm` from the parent restarts the poll while time is left, and a second paid poll records a second confirmation |
| QrModal.ExpiredStopsEverything | components/BakongQRModal.jsx:53-55 | once the time left reaches 0 neither interval runs |
| AdminOtp.Latest | app/api/admin/verify-otp/route.js:31-39 | `Selected`, the code verify-otp uses, is `Latest` over the rows that are the user's, unused and unexpired: the selected row satisfies the filter and has the latest creation time among those that do, later rows in table order being strictly older; none is selected exactly when no row qualifies |
| AdminOtp.CeilDiv | app/api/admin/send-otp/route.js:43-45 | the quotient is rounded up: `(q - 1) * d < x <= q * d` |
| AdminOtp.NewCode | app/api/admin/send-otp/route.js:57 | the code is between 100000 and 999999 |
| AdminOtp.OtpStore.constructor | app/api/admin/send-otp/route.js:63-69 | the table starts empty with fresh ids |
| AdminOtp.VerifyStep | app/api/admin/verify-otp/route.js:4-112 | the route as a function: the answer is success exactly when the body parses, the user is the admin, the lookup works, and the latest active code has fewer than five failures and equals the submitted code; the table keeps its length, changes only on a lockout, a wrong code or a success, and stays as it was when the ignored update fails |
| AdminOtp.OtpStore.Verify | app/api/admin/verify-otp/route.js:4-112 | the new table and the response are exactly those of VerifyStep on the old table, and row ids stay fresh |
| AdminOtp.SendStep | app/api/admin/send-otp/route.js:7-116 | the route as a function: the answer is the 429 exactly when the user is the admin, the lookup works and one of the user's codes falls in the one-minute window at the first clock reading; a row is added, with the mailed code and the next id, exactly when an e-mail is sent, and otherwise the table is unchanged |
| AdminOtp.OtpStore.Send | app/api/admin/send-otp/route.js:7-116 | the new table, the response and the e-mail are exactly those of SendStep on the old table; ids stay fresh and are only consumed by an insert |
| AdminOtp.GateComesFirst | app/api/admin/send-otp/route.js:16-29 | without a user both routes answer 401, and for a non-admin both answer 403, with the table untouched |
| AdminOtp.NoActiveCodeRejected | app/api/admin/verify-otp/route.js:41-46 | with no active code for the user the answer is 401 and nothing changes |
| AdminOtp.LockoutEvenWithRightCode | app/api/admin/verify-otp/route.js:49-66 | a code with five or more failures is refused with 429 even when the submitted code is right; it is marked used if the update goes through, and the table is unchanged if it fails |
| AdminOtp.WrongCodeCounted | app/api/admin/verify-otp/route.js:69-85 | a wrong code reports `4 - previous` attempts remaining with 401; if the update goes through it adds one to the failure count (null counting as 0) and changes nothing else in the row, and if it fails the table is unchanged |
| AdminOtp.RightCodeUsedOnce | app/api/admin/verify-otp/route.js:87-104 | the right code sets a one-hour `admin_session` cookie; if the `used` update goes through the row is marked used and never selected again, and if it fails the same row stays selected and the code is accepted again |
| AdminOtp.LatestAgrees | app/api/admin/verify-otp/route.js:31-39 | tables that agree on which rows qualify, and on their creation times, select the same row |
| AdminOtp.AttemptsKeepSelection | app/api/admin/verify-otp/route.js:71-74 | counting a failure does not change which code is selected |
| AdminOtp.WrongCodesAccumulate | app/api/admin/verify-otp/route.js:69-85 | k wrong codes in a row keep the same row selected, leave its code alone and raise its failure count by k, as long as the count stays at most five |
| AdminOtp.FiveFailuresLockOut | app/api/admin/verify-otp/route.js:49-66 | after five wrong codes whose updates went through, the next attempt is refused with 429, whatever code it carries |
| AdminOtp.WaitSecondsRange | app/api/admin/send-otp/route.js:31-45 | for a code inside the window at the first clock reading, the wait computed at the second reading is at most 60 and at least minus the whole seconds between the readings; with no time between them it is from 0 to 60, and at least 1 unless the code is exactly 60 s old |
| AdminOtp.NegativeWait | app/api/admin/send-otp/route.js:31-45 | a code 59.5 s old at the first reading, with 1.5 s until the second, is reported with a wait of -1 seconds |
| AdminOtp.NewCodeShape | app/api/admin/send-otp/route.js:56-95 | a new code has six digits, is e-mailed exactly as stored, is unused with no failures, and lives five minutes although the e-mail announces ten |
| AdminOtp.SendFailurePaths | app/api/admin/send-otp/route.js:63-103 | an insert failure stores nothing and sends no e-mail; an e-mail failure is a 500 that keeps the stored row |
| AdminOtp.SendThenResendCoolsDown | app/api/admin/send-otp/route.js:31-54 | a second request within a minute of a stored code gets a 429 and stores nothing, even when the first e-mail failed; its wait is at most 60 and at least minus the whole seconds its query took, so from 0 to 60 when it took none |
| AdminOtp.SendThenVerify | app/api/admin/verify-otp/route.js:29-104 | the e-mailed code, entered within five minutes of being stored, is accepted, and its row is marked used when the update goes through |
| AdminLayout.CheckAuthOutcomes | components/admin/AdminLayout.jsx:34-70 | `CheckAuth`, the state `checkAuth` leaves, on every lookup: the check ends at login without a user or on an exception, unauthorized for another e-mail, unlocked exactly for the admin with an unlocked session, otherwise in the code flow, keeping a code entry in progress |
| AdminLayout.Render | components/admin/AdminLayout.jsx:92-138 | the spinner shows exactly while loading or unauthorized, and the dashboard only once loading is over in the unlocked (or never-checked) state |
| AdminLayout.AdminGate.constructor | components/admin/AdminLayout.jsx:21-22 | the gate starts loading in the initial state |
| AdminLayout.AdminGate.RunCheck | components/admin/AdminLayout.jsx:27-72 | the check is skipped while a code is being entered; otherwise the new state is the check's outcome, and an unauthorized user is sent home; loading ends either way |
| AdminLayout.AdminGate.OnAuthEvent | components/admin/AdminLayout.jsx:27-86 | during code entry no listener is subscribed, so no event changes anything; otherwise a sign-out returns to login, a sign-in with a session re-runs the check, and other events change nothing |
| AdminLayout.AdminGate.Proceed | components/admin/AdminLayout.jsx:109-113 | proceeding from the send dialog enters code entry |
| AdminLayout.AdminGate.OtpSucceeded | components/admin/AdminLayout.jsx:88-90 | a verified code unlocks the gate |
| AdminLayout.DashboardOnlyWhenUnlocked | components/admin/AdminLayout.jsx:92-138 | the dashboard is rendered exactly when the gate is unlocked and done loading |
| AdminLayout.SendOtpDialog.constructor | components/admin/AdminLayout.jsx:203-204 | the send dialog starts idle with no cooldown |
| AdminLayout.SendOtpDialog.Tick | components/admin/AdminLayout.jsx:206-211 | each second takes one off a positive cooldown |
| AdminLayout.SendOtpDialog.RunCooldown | components/admin/AdminLayout.jsx:206-211 | running the cooldown effect for `t` seconds leaves the cooldown at `CooldownAfterTicks(n, t)`, which CooldownRunsOut shows is `max(n - t, 0)` for `n` ≥ 0 |
| AdminLayout.SendOtpDialog.Send | components/admin/AdminLayout.jsx:213-236 | the dialog proceeds exactly on success; a refusal with a non-zero wait adopts it as the cooldown; loading ends |
| AdminLayout.ServerCooldownAdopted | components/admin/AdminLayout.jsx:222-230 | a 429 from send-otp with a non-zero wait sets the cooldown to it, any other answer leaves it alone, and success means status 200 |
| AdminLayout.SetAt | components/admin/AdminLayout.jsx:375-377 | a box inside the code is replaced by the typed text; a box past the end appends it |
| AdminLayout.TypingKeepsCodeShort | components/admin/AdminLayout.jsx:371-378 | typing at most one digit into a box keeps the code digits-only and at most six long |
| AdminLayout.BoxPositionsShift | components/admin/AdminLayout.jsx:375-377 | for any code, a digit typed into a box beyond the code's end lands at the code's end, and clearing a box shifts every later digit one box left |
| AdminLayout.KeepDigits | components/admin/AdminLayout.jsx:395 | the filter keeps only digits and never lengthens the text |
| AdminLayout.KeepDigitsAppend | components/admin/AdminLayout.jsx:395 | filtering distributes over concatenation |
| AdminLayout.KeepDigitsIdentity | components/admin/AdminLayout.jsx:395 | the filter keeps a text whole exactly when it is all digits |
| AdminLayout.PastedCode | components/admin/AdminLayout.jsx:392-395 | a pasted code is digits only and at most six long |
| AdminLayout.PasteReadsSixCharacters | components/admin/AdminLayout.jsx:392-397 | characters after the sixth are never read, and a six-digit paste is kept as is |
| AdminLayout.FocusAfterPaste | components/admin/AdminLayout.jsx:399 | the focused box after a paste is at most 5, and the code's length when shorter |
| AdminLayout.VerifyOtpDialog.constructor | components/admin/AdminLayout.jsx:286-288 | the dialog starts with an empty code and a 60 s resend cooldown |
| AdminLayout.VerifyOtpDialog.Tick | components/admin/AdminLayout.jsx:290-298 | each second takes one off a positive resend cooldown |
| AdminLayout.VerifyOtpDialog.RunResendCooldown | components/admin/AdminLayout.jsx:290-298 | running the resend effect for `t` seconds leaves the cooldown at `CooldownAfterTicks(n, t)`, the code and loading flag untouched, so resend is enabled after exactly `n` seconds |
| AdminLayout.VerifyOtpDialog.Type | components/admin/AdminLayout.jsx:371-384 | digit input is written into the box and focus moves on after a non-empty digit; other input changes nothing |
| AdminLayout.VerifyOtpDialog.Paste | components/admin/AdminLayout.jsx:390-402 | a paste with digits replaces the code and moves focus; one without digits changes nothing |
| AdminLayout.VerifyOtpDialog.Verify | components/admin/AdminLayout.jsx:300-324 | the gate unlocks exactly on success; a refusal clears the code; an exception keeps it |
| AdminLayout.VerifyOtpDialog.Resend | components/admin/AdminLayout.jsx:326-345 | a successful resend restarts the 60 s cooldown, a refusal adopts a non-zero server wait, and otherwise the cooldown is kept |
| AdminLayout.CooldownRunsOut | components/admin/AdminLayout.jsx:290-298 | after `t` ticks a cooldown of `n` is `max(n - t, 0)`, so resend is enabled exactly after `n` ticks |
| CartSlice.SumRemove | lib/features/cart/cartSlice.js:87-90 | the sum of the quantities does not depend on the order the keys are taken in |
| CartSlice.SumUpdate | lib/features/cart/cartSlice.js:87-90 | changing one quantity changes the sum by the difference |
| CartSlice.Added | lib/features/cart/cartSlice.js:54-62 | adding sets the product to its truthy quantity plus one, or 1, and leaves every other product as it was |
| CartSlice.Removed | lib/features/cart/cartSlice.js:63-72 | removing decrements a truthy quantity, deletes it at 0, leaves an absent product alone, and leaves every other product as it was |
| CartSlice.Deleted | lib/features/cart/cartSlice.js:73-79 | deleting drops the product and leaves every other product as it was |
| CartSlice.AddKeepsTotal | lib/features/cart/cartSlice.js:54-62 | after an add the total is still the sum of the quantities |
| CartSlice.DeleteKeepsTotal | lib/features/cart/cartSlice.js:73-79 | after a delete the total is still the sum of the quantities |
| CartSlice.RemovePresentKeepsTotal | lib/features/cart/cartSlice.js:63-72 | removing a product in the cart keeps the total equal to the sum |
| CartSlice.RemoveAbsentDrifts | lib/features/cart/cartSlice.js:63-72 | removing a product not in the cart still takes 1 off the total, which then no longer equals the sum (from an empty cart it becomes -1) |
| CartSlice.ReducersKeepPositive | lib/features/cart/cartSlice.js:54-79 | add, remove and delete keep every stored quantity positive |
| CartSlice.FetchCart | lib/features/cart/cartSlice.js:6-25 | a "not found" error fulfils with null, any other error rejects with its message, a row fulfils with its items, and an empty answer fulfils with null |
| CartSlice.CartStore.constructor | lib/features/cart/cartSlice.js:47-52 | the cart starts empty with total 0, not loading and without error |
| CartSlice.CartStore.AddToCart | lib/features/cart/cartSlice.js:54-62 | the new quantities are the old ones with the product added, and the total grows by one |
| CartSlice.CartStore.RemoveFromCart | lib/features/cart/cartSlice.js:63-72 | the new quantities are the old ones with the product removed, and the total drops by one |
| CartSlice.CartStore.DeleteItemFromCart | lib/features/cart/cartSlice.js:73-79 | the product is dropped and the total loses its truthy quantity |
| CartSlice.CartStore.ClearCart | lib/features/cart/cartSlice.js:80-83 | the cart is empty and the total 0 |
| CartSlice.CartStore.SetCart | lib/features/cart/cartSlice.js:84-91 | the payload is adopted and the total is the sum of its quantities |
| CartSlice.CartStore.FetchFulfilled | lib/features/cart/cartSlice.js:94-107 | a remote cart replaces the local one with a consistent total; a null payload changes nothing |
| Common.FindBy | components/Counter.jsx:8 | the index found holds the first element (product, or order as at app/admin/orders/page.jsx:40-44) whose id is the one looked up, and no element has it when none is found |
| Counter.StockFor | components/Counter.jsx:8-9 | the stock is the found product's, with a null stock and an unknown product both read as 0 |
| Counter.PlusClick | components/Counter.jsx:13-20 | `+` adds one exactly when the product is in the cart below its stock, and otherwise leaves the cart as it was |
| Counter.PlusDisabledIff | components/Counter.jsx:35-39 | for a product in the cart, `+` is disabled exactly when a click would not add |
| Counter.NoStockNoAdd | components/Counter.jsx:9-15 | an unknown product or one without stock is never added |
| Counter.PlusRespectsStock | components/Counter.jsx:13-15 | `+` never takes a quantity above the stock |
| Counter.MinusClick | components/Counter.jsx:22-24 | `-` changes the quantities exactly as the `removeFromCart` reducer does and always takes one off the total, with no lower bound of its own, so an item not in the cart leaves the quantities alone but still lowers the total |
| ProductCard.AverageRating | components/ProductCard.jsx:11-16 | no ratings show 0; otherwise the shown value is the mean rounded half up |
| ProductCard.SumBounds | components/ProductCard.jsx:13 | ratings between two bounds put their sum between the count times each bound |
| ProductCard.RatingInRange | components/ProductCard.jsx:11-16 | ratings from 1 to 5 show an average from 1 to 5 |
| ProductCard.UniformRating | components/ProductCard.jsx:11-16 | equal ratings show that rating |
| ProductCard.UniformSum | components/ProductCard.jsx:13 | n equal ratings sum to n times the rating |
| ProductCard.LabelFor | components/ProductCard.jsx:34-42 | "Instock" above 5, "Only n left" from 1 to 5 and "Out of Stock" otherwise, with null read as 0 |
| ProductDetails.StockLabel | components/ProductDetails.jsx:68-78 | the page's stock label is the tile's, tier for tier |
| ProductDetails.AddHandler | components/ProductDetails.jsx:32-38 | a signed-out shopper gets the login dialog, and a signed-in one adds the product |
| ProductDetails.Label | components/ProductDetails.jsx:102-125 | "Out of Stock" exactly when the button is disabled (`ButtonDisabled`: no stock and not in the cart), and "View Cart" exactly when the product is in the cart |
| ProductDetails.Click | components/ProductDetails.jsx:109-113 | without stock a click does nothing; otherwise it adds when the product is not in the cart and goes to the cart when it is |
| ProductDetails.ViewCartInertWithoutStock | components/ProductDetails.jsx:102-125 | out of stock but in the cart, the quantity stepper is shown (`CounterShown`) and the button reads "View Cart" and is enabled, yet a click does nothing |
| ProductDetails.AddFromPage | components/ProductDetails.jsx:32-38 | a signed-in click on an in-stock product not in the cart puts exactly one in it; a signed-out one opens the login dialog |
| ProductDetails.LabelMatchesClick | components/ProductDetails.jsx:109-125 | with stock, "Add to Cart" is shown exactly when a click dispatches, and "View Cart" exactly when it navigates |
| ProductSelection.NotArchived | components/LatestProducts.jsx:22 | exactly the products of the list that are not archived are kept, no more than the list had, and a list without archived products comes back unchanged |
| ProductSelection.NotArchivedCounts | components/LatestProducts.jsx:22 | each live product is kept as many times as the list has it, and no archived product is kept |
| ProductSelection.NotArchivedAppend | components/LatestProducts.jsx:22 | the filter of a concatenation is the concatenation of the filters, so the live products keep their list order |
| ProductSelection.Insert | components/LatestProducts.jsx:24-28 | inserting adds one element and keeps every other, counted with multiplicity |
| ProductSelection.SortDesc | components/LatestProducts.jsx:23-28 | the sorted copy is a permutation of the input |
| ProductSelection.InsertSorted | components/LatestProducts.jsx:24-28 | inserting into a descending sequence keeps it descending |
| ProductSelection.InsertHeadSorted | components/LatestProducts.jsx:24-28 | an element that outranks everything behind it can head a descending sequence |
| ProductSelection.SortDescSorted | components/LatestProducts.jsx:24-28 | the sorted copy is in descending key order |
| ProductSelection.WithKeyCons | components/LatestProducts.jsx:24-28 | the elements with a given key of a sequence with a new head are that head, if it has the key, then the rest's |
| ProductSelection.WithKeySnoc | components/LatestProducts.jsx:24-28 | the elements with a given key of a sequence with a new last element are the rest's, then that element if it has the key |
| ProductSelection.WithKeyNone | components/LatestProducts.jsx:24-28 | a sequence with no element of that key contributes none |
| ProductSelection.InsertStable | components/LatestProducts.jsx:24-28 | an inserted element goes behind every element sharing its key |
| ProductSelection.InsertStableBehind | components/LatestProducts.jsx:24-28 | insertion past a head that outranks the element keeps the tie order |
| ProductSelection.WithKeyPrepend | components/LatestProducts.jsx:24-28 | one common head keeps two sequences' tie order difference |
| ProductSelection.InsertStableInFront | components/LatestProducts.jsx:24-28 | an element that outranks the whole sorted sequence is the only one of its key in front of it |
| ProductSelection.SortDescStable | components/LatestProducts.jsx:23-28 | the sort is stable: elements sharing a key keep their input order |
| ProductSelection.Take | components/LatestProducts.jsx:29 | the first n elements, or all when there are fewer |
| ProductSelection.SelectSpec | components/LatestProducts.jsx:21-29 | `Select`, the filter, sort and cut of a strip, shows at most n live products, none more often than the list has it, in descending key order; no hidden live product outranks a shown one, and for every key the products shown with it are the first ones with it in list order, which fixes the tie at the cut |
| ProductSelection.SameElements | components/LatestProducts.jsx:23-28 | two permutations of each other have the same elements |
| ProductSelection.PrefixSorted | components/LatestProducts.jsx:29 | the first m elements of a descending sequence are descending |
| ProductSelection.PrefixOutranks | components/LatestProducts.jsx:29 | each of the first m elements of a descending sequence ranks at least as high as every element left out |
| ProductSelection.SelectKeepsTieOrder | components/LatestProducts.jsx:21-29 | when all live products fit, those sharing a key are shown in list order |
| ProductSelection.CaptionCountsArchived | components/LatestProducts.jsx:15-17 | the caption's first number, `Min(|products|, n)`, bounds what is shown, and overstates it when an archived product is counted |
| LatestProducts.DateKey | components/LatestProducts.jsx:26-27 | the key is `created_at` when present, else `createdAt` |
| LatestProducts.ShownSpec | components/LatestProducts.jsx:8-29 | at most five live products, none more often than the list has it, newest first; no hidden live product is newer than a shown one, and of products with the same time the earliest in the list are shown |
| LatestProducts.ShownKeepsTies | components/LatestProducts.jsx:21-29 | when every live product fits, products with the same time are shown in list order |
| LatestProducts.DescriptionBoundsShown | components/LatestProducts.jsx:15-29 | the caption's first number is at least the number shown, and equal to it when nothing is archived |
| BestSelling.RatingCount | components/BestSelling.jsx:23 | the key is the number of ratings, 0 when the list is missing |
| BestSelling.ShownSpec | components/BestSelling.jsx:7-24 | at most eight live products, none more often than the list has it, by non-increasing rating count; no hidden live product has more ratings than a shown one, and of products with the same count the earliest in the list are shown |
| BestSelling.ShownKeepsTies | components/BestSelling.jsx:20-24 | when every live product fits, products with the same count are shown in list order |
| BestSelling.DescriptionBoundsShown | components/BestSelling.jsx:14-24 | the caption's first number is at least the number shown, and equal to it when nothing is archived |
| AdminOrders.SetStatus | app/admin/orders/page.jsx:103-106 | every order with that id gets the new status and every other order is unchanged |
| AdminOrders.Decrement | app/admin/orders/page.jsx:83-84 | the new stock is the old one (null read as 0) less the quantity, or 0 when that would be negative |
| AdminOrders.ConfirmFrom | app/admin/orders/page.jsx:59-99 | the confirm loop touches only existing products and ends done, on a failed read, or on a failed write |
| AdminOrders.CancelFrom | app/admin/orders/page.jsx:150-181 | the restore loop touches only existing products |
| AdminOrders.ConfirmCompletesIff | app/admin/orders/page.jsx:59-99 | the confirm loop finishes exactly when no read fails and no write to an existing product fails |
| AdminOrders.ConfirmEffect | app/admin/orders/page.jsx:59-99 | without failures every listed existing product gets its clamped decrement and every other product keeps its stock |
| AdminOrders.CancelEffect | app/admin/orders/page.jsx:150-181 | without failures every listed existing product gets its quantity back and every other product keeps its stock |
| AdminOrders.ConfirmThenCancelRestores | app/admin/orders/page.jsx:59-181 | confirming then cancelling without failures gives every listed product its old stock back when no quantity was clamped |
| AdminOrders.ClampingBreaksRoundTrip | app/admin/orders/page.jsx:83-84 | whenever fewer are in stock than ordered, confirming then cancelling leaves the ordered quantity, not the old stock |
| AdminOrders.FailureLeavesEarlierWrites | app/admin/orders/page.jsx:77-80 | a failed read of the second item stops the loop after the first item's stock is already written |
| AdminOrders.ConfirmWithoutItemsChangesNothing | app/admin/orders/page.jsx:40-56 | an unknown order, or one without a non-empty item list, changes nothing |
| AdminOrders.TextItemsCannotBeConfirmed | app/admin/orders/page.jsx:50-56 | an order whose items are stored as JSON text is treated as having no items |
| AdminOrders.ConfirmedOnlyAfterEveryItem | app/admin/orders/page.jsx:35-120 | the order becomes confirmed exactly when it has items, every read and existing-product write succeeds and the status update succeeds; otherwise no order changes |
| AdminOrders.DeliverOrder | app/admin/orders/page.jsx:122-140 | stock never changes; a successful update marks the orders with that id delivered and a failed one changes nothing |
| AdminOrders.CancelRestoresOnlyConfirmed | app/admin/orders/page.jsx:142-201 | stock is touched only for an order that was confirmed, and the order is marked cancelled exactly when the status update succeeds |
| AdminOrders.CancelSkipsFailedItem | app/admin/orders/page.jsx:157-160 | a failed read while restoring skips that item and the loop goes on with the next |
| AdminOrders.ActionFor | app/admin/orders/page.jsx:283-311 | "Confirm" exactly for pending, "Delivered" enabled exactly for confirmed, and a disabled "Cancelled" for any status other than pending, confirmed and delivered |
| AdminOrders.StatusLabel | app/admin/orders/page.jsx:257-277 | the badge names confirmed, delivered and cancelled, and reads "Pending" for every other status |
| AdminOrders.FailedOrderLabels | app/admin/orders/page.jsx:257-311 | an order whose status is none of the four known ones, "failed" among them, shows a disabled "Cancelled" button beside a "Pending" badge |
| AdminOrders.OrdersPage.constructor | app/admin/orders/page.jsx:16-18 | the page starts with the given tables and no order selected |
| AdminOrders.OrdersPage.Confirm | app/admin/orders/page.jsx:35-120 | the tables and toast after the confirm handler are those of ConfirmOrder |
| AdminOrders.OrdersPage.Deliver | app/admin/orders/page.jsx:122-140 | the tables and toast after the delivered handler are those of DeliverOrder |
| AdminOrders.OrdersPage.Cancel | app/admin/orders/page.jsx:142-201 | the tables and toast after the cancel handler are those of CancelOrder, and the dialog closes only on success |
| AdminOrders.OrdersPage.CancelFromDialog | app/admin/orders/OrderDetailsModal.jsx:34-45 | refused, nothing changes; accepted, the cancel handler runs with the dialog's items and the dialog then closes whatever the outcome |
| OrderDetails.NormaliseItems | app/admin/orders/OrderDetailsModal.jsx:28-32 | a list is used as is, text is parsed with "" read as "[]", and any other value gives no items |
| OrderDetails.ItemCountsAgree | app/admin/orders/page.jsx:241-245 | the list's item count is the number of items the dialog shows, and for a list the number the confirm handler works through, while text counts for neither handler |
| OrderDetails.CancelShown | app/admin/orders/OrderDetailsModal.jsx:222 | "Cancel Order" is shown exactly for orders neither cancelled nor delivered |
| OrderDetails.CancelShownBeyondActions | app/admin/orders/OrderDetailsModal.jsx:222 | every order with an active row button can be cancelled from the dialog, and so can one with an unknown status, whose badge reads "Pending" |
| OrderDetails.CancelClick | app/admin/orders/OrderDetailsModal.jsx:34-45 | the handler is called exactly when the confirm dialog is accepted, with the order's id, status and the dialog's items |
| OrderDetails.ConfirmThenCancelFromDialog | app/admin/orders/OrderDetailsModal.jsx:28-45 | confirming an order with a list of distinct products and cancelling it from the dialog without failures restores every product's stock when nothing was clamped, and leaves the order cancelled |
| TelegramRoute.CleanToken | app/api/telegram/route.js:15-17 | a missing token stays missing; a present one is trimmed and loses a leading "bot" |
| TelegramRoute.TokenStrippedOnce | app/api/telegram/route.js:17 | a token starting "botbot" loses only the first "bot" |
| TelegramRoute.CustomerName | app/api/telegram/route.js:31 | the caption names the user's e-mail when it is non-empty, and "Guest" otherwise |
| TelegramRoute.ItemLines | app/api/telegram/route.js:24-25 | one line per item, in item order |
| TelegramRoute.IntToStringNoNewline | app/api/telegram/route.js:25 | a printed quantity holds no line break |
| TelegramRoute.ItemsListLines | app/api/telegram/route.js:24-26 | splitting the items list at line breaks gives back one line per item, when no name or price holds a line break |
| TelegramRoute.CaptionIsBody | app/api/telegram/route.js:28-38 | `Caption`, the trimmed template: trimming removes only the template's own leading line break and trailing indentation, unless the total ends in white space |
| TelegramRoute.BodyEnds | app/api/telegram/route.js:28-37 | the caption body that `Caption` trims starts with the parcel emoji and ends with the total, or with "$" when the total is empty |
| TelegramRoute.TrimTemplate | app/api/telegram/route.js:28-38 | trimming a body between the template's line break and indentation gives the body back |
| TelegramRoute.Cap | app/api/telegram/route.js:45 | at most the first ten photos are kept |
| TelegramRoute.CollectMedia | app/api/telegram/route.js:41-52 | the album is the first ten first-images of the items that have images, in item order |
| TelegramRoute.FirstsFromItems | app/api/telegram/route.js:42-49 | there are no more photos than items, and each photo is the first image of some item |
| TelegramRoute.PhotosNotDeduplicated | app/api/telegram/route.js:40-52 | two items with the same first image put it in the album twice |
| TelegramRoute.BuildCall | app/api/telegram/route.js:57-87 | several photos go as an album with the caption on the first photo only, one photo with sendPhoto, and none as a text message, all to the given chat |
| TelegramRoute.PrepareNotification | app/api/telegram/route.js:24-87 | the request built is the notification for the order's items and caption |
| TelegramRoute.ValidationComesFirst | app/api/telegram/route.js:7-12 | a request without a phone or without items gets 400 and nothing is recorded or sent |
| TelegramRoute.MissingCredentialsFail | app/api/telegram/route.js:15-21 | a missing or empty token, the token "bot", or a missing chat id gives 500 and nothing is recorded or sent |
| TelegramRoute.NotificationOutcomes | app/api/telegram/route.js:105-158 | with a valid request and credentials exactly one notification is sent; a successful insert adds a row under the user's id or null, which stays "pending" on success; a failed notification gives 500 and turns the row "failed" when that update goes through, leaving it "pending" when it does not |
| TelegramRoute.RecordOutcomes | app/api/telegram/route.js:105-152 | recording, sending and marking the row failed keep the table and the sent requests as the route promises; an unsuccessful "failed" update leaves the row "pending" and the response unchanged |
| TelegramRoute.OrderNotifier.constructor | app/api/telegram/route.js:103 | the notifier starts with the given table and nothing sent |
| TelegramRoute.OrderNotifier.HandlePost | app/api/telegram/route.js:3-160 | the table, the sent requests and the response after the route are those of Post |
| TelegramRoute.OrderNotifier.RecordAndSend | app/api/telegram/route.js:105-152 | the table, the sent requests and the response after inserting and sending are those of Record |
| TelegramDebug.ChooseEnvFile | test-telegram.js:6-14 | ".env.local" exactly when it exists, else ".env" exactly when that exists, and none (the script stops) when neither does |
| TelegramDebug.ParseEnv | test-telegram.js:18-24 | the dictionary read from the file is `EnvFrom` of its lines: each line recorded by `Record`, first line to last |
| TelegramDebug.EnvFromStep | test-telegram.js:19-24 | reading one more line records that line into the dictionary built so far |
| TelegramDebug.RecordOf | test-telegram.js:20-22 | `Record`, one line's update: a line whose first two parts are non-empty stores them trimmed |
| TelegramDebug.NoSeparator | test-telegram.js:20 | text without the separator splits into itself |
| TelegramDebug.SplitAt | test-telegram.js:20 | splitting cuts at the first separator and goes on with the rest |
| TelegramDebug.KeyValueLine | test-telegram.js:20-22 | a line `KEY=VALUE` stores the trimmed value under the trimmed key |
| TelegramDebug.ValueEndsAtSecondSeparator | test-telegram.js:20-22 | whatever follows a second "=" is dropped from the value |
| TelegramDebug.SkippedLines | test-telegram.js:20-22 | a line without "=", or with nothing before or after it, changes nothing |
| TelegramDebug.LaterLineWins | test-telegram.js:19-24 | when a key appears twice, the later line's value is kept |
| TelegramDebug.CleanToken | test-telegram.js:39-42 | one leading "bot" is removed and nothing else changes |
| TelegramDebug.CleaningMatchesRoute | test-telegram.js:38-42 | a token value read from the file is cleaned exactly as the notification route cleans the same text |
| TelegramDebug.Outcome | test-telegram.js:26-57 | the script stops for a missing or empty token or chat id, and otherwise posts to the bot's sendMessage path with the cleaned token and the chat id |
| TelegramDebug.Run | test-telegram.js:5-63 | the script's result is the outcome for the chosen file's dictionary, or "no file" when there is none |
| AuthCallback.NextPath | app/auth/callback/route.js:9 | only a missing `next` parameter defaults to "/"; an empty one is kept |
| AuthCallback.RedirectBase | app/auth/callback/route.js:44-55 | the request's own origin in development or without a forwarded host, and `https://` plus the forwarded host otherwise |
| AuthCallback.ErrorPage | app/auth/callback/route.js:11-20 | no code, an empty code, a failed exchange or no user sends the user to the error page on the request's own origin, with nothing read or written |
| AuthCallback.OnboardingDecision | app/auth/callback/route.js:5-62 | with `ErrorPage` this fixes `Callback`, the whole route, on every input: completed metadata goes to `next` without reading the profile; otherwise a completed profile goes to `next` and sets the metadata, and an incomplete one goes to onboarding |
| AdminMiddleware.Middleware | middleware.js:10-46 | the user is sent home exactly when the path starts with "/admin", is not the login page, and a signed-in user's email differs from the administrator's |
| AdminMiddleware.Handle | middleware.js:5-60 | the middleware runs exactly on the paths `Matched` accepts (not `_next/static`, `_next/image`, `favicon.ico`, nor a path ending in an image extension), and the user is sent home exactly when it runs and `Middleware` would redirect |
| AdminMiddleware.AdminImagesUngated | middleware.js:10-60 | an image under "/admin" and a static bundle are served without the check; an admin page and an upper-case ".PNG" ending are checked |
| AdminMiddleware.LooksUpUser | middleware.js:10-31 | the user is looked up on every path under "/admin" except the login page, and on no other path |
| AdminMiddleware.UnlookedPathsPass | middleware.js:10-31 | on a path where the user is not looked up, the middleware passes every visitor alike |
| AdminMiddleware.GateCases | middleware.js:10-46 | paths outside "/admin", the login page, signed-out visitors and the administrator pass; "/administrator" is gated and "/Admin" is not |
| AuthSlice.AuthStore.constructor | lib/features/auth/authSlice.js:5-11 | nobody is signed in and every flag is off |
| AuthSlice.AuthStore.SetUser | lib/features/auth/authSlice.js:13-16 | the payload becomes the user, and the store is signed in exactly when the payload is a user; the other flags stay |
| AuthSlice.AuthStore.ClearUser | lib/features/auth/authSlice.js:17-20 | nobody is signed in afterwards, and the modal and onboarding flags stay |
| AuthSlice.AuthStore.SetLoginModal | lib/features/auth/authSlice.js:21-26 | only the login modal flag changes, to open or closed |
| AuthSlice.AuthStore.SetEditProfileModal | lib/features/auth/authSlice.js:27-32 | only the edit-profile modal flag changes, to open or closed |
| AuthSlice.AuthStore.SetNeedsOnboarding | lib/features/auth/authSlice.js:33-35 | only the onboarding flag changes, to the payload |
| AuthSlice.AuthStore.CompleteOnboarding | lib/features/auth/authSlice.js:36-38 | only the onboarding flag changes, to off |
| AuthSlice.ReducersCompose | lib/features/auth/authSlice.js:13-26 | opening the login modal twice then signing in and out leaves the modal open, nobody signed in, and the other flags as they were |
| ProductSlice.FetchProducts | lib/features/product/productSlice.js:4-14 | the thunk rejects exactly on a query error, with its message, and otherwise fulfils with the rows or with [] when they are null |
| ProductSlice.ProductStore.constructor | lib/features/product/productSlice.js:19-23 | the list starts empty, idle and without error |
| ProductSlice.ProductStore.SetProduct | lib/features/product/productSlice.js:25-27 | the payload becomes the list and nothing else changes |
| ProductSlice.ProductStore.ClearProduct | lib/features/product/productSlice.js:28-30 | the list is emptied and nothing else changes |
| ProductSlice.ProductStore.FetchPending | lib/features/product/productSlice.js:34-36 | the status becomes loading while the list and the error stay |
| ProductSlice.ProductStore.FetchSettled | lib/features/product/productSlice.js:37-44 | a fulfilled fetch replaces the list and keeps the error; a rejected one keeps the list and records the message |
| ProductSlice.StaleErrorAfterRetry | lib/features/product/productSlice.js:37-44 | a failed fetch followed by a successful one leaves the old message beside the status "succeeded" |
| AddProduct.Without | app/admin/products/add/page.jsx:156 | filtering out an index inside the list drops exactly that image and keeps the rest in order; an index outside the list keeps every image |
| AddProduct.RemovedAtSpec | app/admin/products/add/page.jsx:153-157 | the remove button of an image drops exactly that one, one shorter, and an index outside the list changes nothing |
| AddProduct.ProductForm.constructor | app/admin/products/add/page.jsx:13-22 | the form starts empty, with no images, not loading and nothing inserted |
| AddProduct.ProductForm.Change | app/admin/products/add/page.jsx:24-26 | only the named input changes |
| AddProduct.ProductForm.Upload | app/admin/products/add/page.jsx:28-35 | only a "success" event appends its URL at the end of the images |
| AddProduct.ProductForm.Remove | app/admin/products/add/page.jsx:153-157 | the images become the list without that position and nothing else changes |
| AddProduct.ProductForm.Submit | app/admin/products/add/page.jsx:37-59 | a successful insert adds the product with stock 0 and the form's images and goes to the product list; a failed one adds nothing, alerts the message and re-enables the form |

## Left out

- All network, database, e-mail and file I/O. Each call is a parameter giving its result or its failure, and the tables are in-memory sequences and maps.
- Timers, effect lifecycles and concurrency: `setInterval` and `setTimeout` are explicit `Tick` and `Poll` calls, overlapping polls are not modelled, and neither is the order in which React applies state updates.
- The KHQR payload encoding and the MD5 fingerprint, computed inside the `bakong-khqr` library. The library is a function parameter returning `{qr, md5}`.
- `Math.random`: the draw is a parameter, and only the code's range is modelled.
- Floating point and locale formatting. The payment amount is an integer, `parseFloat` of the product form's prices is not modelled (the row keeps the typed text), and prices in the Telegram caption are the text JavaScript prints.
- Supabase's `.single()` on a product with no row is read as "the row is absent". An error from it is one of the failing calls given as parameters.
- `AdminOrders.ConfirmFrom`: a product with no row is skipped. In the program, `.single()` reports a missing row as an error with code PGRST116, so the confirm handler returns at that item. The model matches this only when that item's index is also in `fetchFails`, so the skip branch over-approximates what the program can do. In the cancel loop both readings skip the item, so `AdminOrders.CancelFrom` is exact.
- `AdminOtp.SendStep`: the database sets a new row's `created_at` on insert. The model takes it to be the same clock reading the route uses for `expires_at`.
- `AdminOtp.Latest`: among rows with the same `created_at`, the last in table order is chosen. `order by created_at desc limit 1` leaves the order among ties to the database, so this tie-break is an assumption.
- `TelegramRoute.RowId`: order ids are taken to count from 1, as an identity column does by default. The route only tests `orderData?.id` for truthiness, so under this assumption a truthy id means the insert worked; an id of 0 is not modelled.
- The orders page's re-read after each change (`fetchOrders`): the page's `orders` field is the table itself.
- Toasts, alerts and console output are left out, except where a message is the observable result (an alert text, a response's error).
- `syncCart` (the debounced upload of the cart) and the cart synchroniser, because they are I/O with no rule of their own.
- The QR image proxy route and the QR download button, because they only pass data through.
- Pure presentation components: the navbar, modals and maps, the image zoom, order summaries, the admin sidebar and dashboard, and the providers and store setup.
- `LatestProducts.DateKey`: a product with neither `created_at` nor `createdAt` gets key 0. JavaScript would compare an invalid date as `NaN`, which leaves the sort's result up to the engine.
- `Common.Trim`: the white space set is space, tab, line feed, carriage return, vertical tab, form feed and the no-break space. JavaScript's other Unicode spaces and line terminators are not included.
- `TelegramRoute.CollectMedia`: writing the caption onto entry 0 of the album is modelled as building the entries with the caption in place, not as mutating a shared array.
- `ProductSelection.CaptionCountsArchived`: the caption is modelled by its first number, `Min(|products|, n)`; the surrounding text is not modelled.
- `AuthCallback.ErrorPage`: it states one direction only. An outcome on the error page does not imply an error, because `next` may itself be the error path.
- `AdminMiddleware.Middleware`: the `updateSession` refresh that runs first is not modelled. Its response is passed through as is. Which paths reach the middleware at all is modelled separately by `AdminMiddleware.Matched` and `AdminMiddleware.Handle`.
- `AdminMiddleware.Matched`: a path holding a line break is not modelled; the matcher's `.` does not cross one, and request paths encode it.
- `ProductSelection.SortDesc`: JavaScript's stable `sort` is modelled by a stable insertion sort, which is characterised by sortedness, permutation and tie order. The engine's own algorithm is not modelled.
