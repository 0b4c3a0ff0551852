# AI-coin ledger and course/webinar enrollment guards — a Dafny model

This project models the two pieces of state-transition logic in a Telegram
promotion bot that sells an AI course:

* the **AI-coin ledger** (`coin_service.py`): crediting and debiting a user's
  coin balance, each successful call appending one operation to the user's
  history;
* the **enrollment and purchase guards**: offering the next webinar and
  confirming a registration for it, which records the (user, webinar) pair
  once and credits 100 coins once (`handlers/registration.py`); and
  initiating a course purchase, which picks the on-sale course that starts
  first, refuses when the user is already registered or has already paid,
  and otherwise records one PENDING payment for the course price in roubles
  (`handlers/enroll_course.py`);
* the **schema constraints** these rely on (`models.py`): the payment status
  enumeration, composite primary keys on the registration tables, unique
  `telegram_id`, unique gateway `payment_id`, column defaults and the
  `Numeric(10, 2)` money columns.

The database is an immutable `Store` value: users in a map keyed by Telegram
id, each with a balance and an operation history; webinars and courses as
table rows; the two registration tables as rows; payments as rows. Every
handler that writes the store is a pure function from a store (and its
inputs) to a result and a new store (`Step`); the read-only ones
(`ShowNextWebinar`, `GetBalance`, `GetUserWithCoins`) return only their answer. `Models.Valid` collects the constraints the store keeps —
among them the ledger invariant "balance = sum of the history, never
negative" — and each operation is proved to preserve it.

Files: `wrappers.dfy` (Option), `models.dfy` (schema, constraints, store
invariant), `text_format.dfy` (Python `str(int)`, `int(str)`,
`str.split(sep)[-1]`), `catalog.dfy` (catalog queries), `coin_service.dfy`,
`registration.dfy`, `enroll_course.dfy`.

Modelling choices:

* Money is an integer number of kopecks; `Numeric(10, 2)` becomes the range
  check `Models.FitsNumeric10x2`.
* Time is an integer; the current time (`datetime.now()`, `func.now()`) is a
  parameter `now`.
* Rows that reference a user (registrations, payments) carry the user's
  Telegram id rather than the surrogate `users.id`. The two correspond one to
  one because `telegram_id` is unique and non-null.
* The gateway call is a parameter: its reply (`Created(url, metadata)` or
  `Unavailable`) and the freshly generated payment id are inputs to
  `EnrollCourse.PurchaseCourse`. A payment id that collides with a stored one
  makes the insert fail on the unique constraint, which the handler turns
  into a rollback.
* `ORDER BY date ASC LIMIT 1` leaves the order among equal dates to the
  database; the model returns the first such row in table order.

Where the code's behaviour may surprise a reader, the model follows the
code:

* `add_coins` and `subtract_coins` take any integer and use its magnitude;
  an unknown user gets `0` from `add_coins` and `-1` from `subtract_coins`,
  and `get_balance` answers `0` for an unknown user — there is no separate
  "user not found" outcome.
* The payment id stored locally is the identifier the bot generates and
  passes to the gateway as the idempotence key, not an id returned by the
  gateway.
* The purchase handler creates a missing user before its checks, but returns
  on every refusal without committing, so the new user persists only
  together with a recorded payment.
* The "already paid" check reads at most one row: with two or more
  SUCCEEDED payments for the same user and course the query raises and the
  handler answers with its generic error, changing nothing
  (`EnrollCourse.PurchaseCourse`, outcome `Failure`).
* Confirming a webinar registration commits the registration and the coin
  credit in two separate transactions; the model applies both in sequence.
* Nothing in the code moves a payment out of PENDING and there is no
  reconciliation handler; `EnrollCourse.PurchaseKeepsAllPending` shows that
  the "already paid" refusal is therefore never reached from a store whose
  payments are all PENDING.
* Pressing "buy" twice before paying records two PENDING payments for the
  same user and course (`EnrollCourse.SecondPurchaseAddsSecondPending`);
  nothing in the code deduplicates in-flight payments.

## Model

| member | source | states |
|---|---|---|
| Models.ParseStatus | models.py:14-18 | Python's `PaymentStatus(v)`: each member's value maps back to that member, and any other text to none |
| Models.PaymentStatusIsFourDistinctValues | models.py:14-18 | the payment status has exactly four members with distinct values, and `PaymentStatus(v)` of each member's value gives back that member |
| Models.WithDefaults | models.py:118-124 | a payment inserted without status or currency gets PENDING and "RUB"; supplied values and all other columns are kept |
| Models.InsertRegistration | models.py:22-32 | the composite primary key rejects a duplicate (user, offering) pair with no change, otherwise appends exactly that row, and keeps the table free of duplicates |
| Models.InsertPayment | models.py:116 | the unique constraint rejects a payment whose payment_id is already stored; otherwise one row is appended, earlier rows untouched, and payment ids stay pairwise distinct |
| Models.OperationsSumAppend | coin_service.py:37-47 | appending an operation to a history adds exactly its amount to the history's total |
| Models.NewUser | handlers/enroll_course.py:189-196 | a user created on first purchase carries the Telegram username, no direction, a zero balance and an empty coin history |
| Models.AddWebinarRegistrationKeepsValid | models.py:22-25 | recording a new pair for an existing user and webinar keeps every store constraint, including at most one row per pair |
| Models.AddUserKeepsValid | models.py:38 | adding a user under a Telegram id not yet present keeps every store constraint |
| Models.AddPaymentKeepsValid | models.py:113-124 | appending a payment for an existing user and course with an unused payment_id and an in-range amount keeps every constraint |
| TextFormat.IntToDecimal | handlers/registration.py:36 | str(n) is non-empty, starts with a minus sign exactly when n is negative, is otherwise all decimal digits, and never contains an underscore, so it is always the last underscore-separated field of the callback data |
| TextFormat.ParseInt | handlers/registration.py:63 | int(t) fails on empty text; a run of digits reads as its decimal value; a minus sign and digits read as the negated value; text with no surrounding whitespace that is neither signed nor all digits fails |
| TextFormat.DecimalRoundTrip | handlers/registration.py:36 | the decimal digits written for a natural number read back as that number |
| TextFormat.NegativeRoundTrip | handlers/registration.py:63 | int() of str(n) is n for a negative n: the minus sign and digits read back |
| TextFormat.IntRoundTrip | handlers/registration.py:63 | Python's int() of str(n) is n for every integer n, negative ones included |
| TextFormat.LastField | handlers/registration.py:63 | split(sep)[-1] is the longest separator-free suffix of the text |
| TextFormat.LastFieldAfterSeparator | handlers/registration.py:63 | the last field of a prefix ending in the separator followed by a separator-free field is that field |
| Catalog.Earliest | handlers/registration.py:22 | the chosen row passes the filter and no passing row has a smaller key; none is chosen iff no row passes |
| Catalog.NextWebinar | handlers/registration.py:21-24 | the next webinar is dated after now and no webinar after now is earlier; none iff no webinar lies in the future |
| Catalog.SelectCourse | handlers/enroll_course.py:199-204 | the selected course is active and starts after now, and no active future course starts earlier; none iff no course is active and in the future |
| Catalog.FindWebinar | handlers/registration.py:73 | lookup by primary key finds a webinar with that id, and finds none iff no webinar has it |
| Catalog.FindWebinarIsTheRow | models.py:66 | with unique ids, looking up a stored webinar's id returns that webinar |
| CoinService.AddCoins | coin_service.py:11-53 | an unknown user gets 0 and nothing changes; otherwise the balance rises by exactly abs(amount), one EARNED operation of abs(amount) is appended, the new balance is returned and no other row changes |
| CoinService.SubtractCoins | coin_service.py:56-102 | an unknown user or a balance below abs(amount) gets -1 and nothing changes; otherwise the balance falls by abs(amount), one SPENT operation of -abs(amount) is appended and the non-negative new balance is returned; a non-negative answer holds exactly when the store changed |
| CoinService.GetBalance | coin_service.py:105-124 | an unknown user has balance 0; a known one has the stored balance, which in a valid store is the total of the history and non-negative |
| CoinService.GetUserWithCoins | coin_service.py:127-148 | the user row with its history is returned exactly when the Telegram id is known, and its balance is its history's total |
| CoinService.AppendKeepsLedger | coin_service.py:37-47 | a user whose balance totals the history keeps that after a well-signed operation that moves the balance by its amount without going negative |
| CoinService.AddCoinsPreservesValid | coin_service.py:33-50 | a credit keeps balance = sum of operations for every user and keeps every other constraint |
| CoinService.SubtractCoinsPreservesValid | coin_service.py:78-99 | a debit, successful or refused, keeps balance = sum of operations and balances non-negative |
| CoinService.BalancesMoveInTheStatedDirection | coin_service.py:24-37 | a credit never lowers any balance; a debit never raises any balance and never makes one negative |
| CoinService.SubtractUndoesAdd | coin_service.py:11-102 | debiting the amount just credited succeeds and restores the balance; the history gains two entries that cancel out |
| CoinService.RunPreservesValid | coin_service.py:11-102 | after any sequence of credits and debits, refused ones included, every constraint holds (each balance the total of its history, never negative), the set of users is the same and no other table changes |
| Registration.ConfirmCallbackData | handlers/registration.py:36 | the button's callback data starts with the prefix the confirmation handler is dispatched on |
| Registration.ParseWebinarId | handlers/registration.py:63 | the id is the integer after the last underscore: data ending in an underscore (or empty) yields no id, and data without an underscore is read as a whole |
| Registration.CallbackDataRoundTrip | handlers/registration.py:36-63 | reading the webinar id back from the button's callback data gives the id it was built from |
| Registration.ShowNextWebinar | handlers/registration.py:14-40 | nothing is offered iff no webinar is in the future; otherwise the offer is the earliest future webinar, its callback data is exactly confirm_registration_ followed by str(id), and it reads back as that id |
| Registration.ConfirmRegistration | handlers/registration.py:58-96 | unreadable data, a missing user or webinar, or an existing registration change nothing; otherwise exactly the (user, webinar) row is added, exactly 100 coins are credited with one EARNED operation, the rest of the user's row (name, direction) and every other row are unchanged, and the new balance is reported |
| Registration.RecordAndCredit | handlers/registration.py:90-96 | after registering, the user's row changes only by exactly 100 more coins and one EARNED operation (name and direction kept), no other row changes, and the displayed balance is the new one |
| Registration.ConfirmPreservesValid | handlers/registration.py:81-96 | confirmation keeps at most one row per (user, webinar) and the ledger consistent |
| Registration.ConfirmTwiceRegistersOnce | handlers/registration.py:81-96 | from a valid store the second press of the same button changes nothing and the table keeps at most one row per pair; the net balance gain of the two presses is 100 when the first press registered and 0 otherwise |
| Registration.ConfirmTwiceFreshPair | handlers/registration.py:75-96 | when the user and the webinar exist and the pair is not yet registered, two presses leave that pair in the table exactly once and the balance exactly 100 coins higher |
| Registration.ConfirmFreshPair | handlers/registration.py:75-96 | callback data naming an existing webinar that an existing user has not registered for always registers that pair and credits exactly 100 coins |
| Registration.ShowThenConfirm | handlers/registration.py:14-96 | pressing the offered button registers an existing, not yet registered user for exactly the offered webinar with a 100-coin credit |
| EnrollCourse.FallbackEmailInjective | handlers/enroll_course.py:274 | two different Telegram ids never get the same placeholder e-mail |
| EnrollCourse.CustomerData | handlers/enroll_course.py:257-274 | the receipt contact has exactly one non-empty key: the e-mail if present, else the phone, else the default e-mail, else the placeholder |
| EnrollCourse.BuildRequest | handlers/enroll_course.py:276-312 | the charge and its single receipt line both equal the course price in RUB, and the local payment id is the idempotence key |
| EnrollCourse.CountSucceeded | handlers/enroll_course.py:233-240 | the count of SUCCEEDED payments for the user and course is zero iff there is no such payment |
| EnrollCourse.WithBuyer | handlers/enroll_course.py:184-196 | after get-or-create the buyer's Telegram id is present, existing users are untouched, a new user is a fresh row, nothing else changes |
| EnrollCourse.PurchaseCourse | handlers/enroll_course.py:169-361 | every refusal or failure leaves the store unchanged (the lazily created user included); no course is offered iff none is active and in the future; the guards run in the handler's order: a buyer registered for the selected course is always answered "already registered", and otherwise exactly one SUCCEEDED payment for it is answered "already paid" (provided stored statuses read back, see "Left out"), before the gateway is consulted; a failure means two or more SUCCEEDED payments, a gateway error or a reused payment id; a payment link results iff a course is selected, the user is not registered, has no SUCCEEDED payment, the gateway answered and the id is unused, and then exactly one PENDING payment of the course price in RUB is appended and registrations are unchanged |
| EnrollCourse.PurchasePreservesValid | handlers/enroll_course.py:184-329 | a purchase keeps one user per Telegram id, unique payment ids, payments referring to existing users and courses, and amounts in range |
| EnrollCourse.PurchaseKeepsAllPending | handlers/enroll_course.py:231-329 | from a store whose payments are all PENDING, a purchase leaves them all PENDING and never answers "already paid" |
| EnrollCourse.SecondPurchaseAddsSecondPending | handlers/enroll_course.py:212-329 | a second purchase before paying, with a new id and a reachable gateway, records a second PENDING payment for the same course |

## Left out

- Telegram I/O (messages, photos, keyboards, captions, the `callback.message` early return) and the display half of `enroll_course_handler`, whose course query is the same as `Catalog.SelectCourse`: presentation only.
- The YooKassa call itself: a foreign API; its reply and the generated payment id are parameters.
- The float formatting of prices in captions and in the request (`float(price):.2f`): floating point; amounts are integer kopecks.
- Payment reconciliation and any transition out of PENDING: no such code exists.
- Concurrency: the code does unlocked read-modify-write on balances, and webinar confirmation commits the registration and the credit in two transactions; the model runs every operation sequentially and atomically.
- Timestamps with database defaults (`start_time`, `registration_date`, `created_at`, `paid_at`) and the surrogate integer keys of users and payments (including `user_id` in the gateway metadata): not consulted by any guard.
- The schema's definitions of the coin operation table and the balance column are not part of this model's sources; an operation is (signed amount, EARNED or SPENT, reason, optional description) and a user's balance starts at 0.
- `get_user_with_coins` loads the whole history; no bounded or newest-first history query exists in the code.
- TextFormat.ParseInt: accepts ASCII whitespace, one sign and ASCII digits only; Python's `int()` also accepts Unicode whitespace and digits and underscores between digits, none of which can follow the last underscore of callback data built by the bot. Neither `ParseInt` nor `IntToDecimal` models CPython's 4300-digit limit on integer/string conversion; database ids never come near it.
- EnrollCourse.PurchaseCourse: the model assumes a stored payment status reads back as its status, so a buyer with exactly one SUCCEEDED payment is answered "already paid". The `status` column (models.py:119-124) is mapped by enum member name while the handler's own casts (`'succeeded'::payment_status`, `'pending'::payment_status`) show the database labels are the lowercase values; if so, reading such a row back at enroll_course.py:240 raises and the handler answers its generic error instead. The store is unchanged in both cases. `Models.ParseStatus` models Python's `PaymentStatus(v)`, not this column read.
- Course tie-breaking: among courses or webinars with the same date the database's choice is unspecified; the model takes the first in table order.
- `main.py`, `keyboards.py`, `database.py`, `upload_video.py`, `mp4.py`, `handlers/admin.py`, `handlers/additional_actions.py`, `handlers/business_direction.py`, `handlers/personal_direction.py`: start-up, presentation, media upload and administrative date parsing.
