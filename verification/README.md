# Verified model of the wallet ledger's money engine

This project models the Go services that move money (transfers, payment webhooks, wallet creation and
status changes, the ledger, the outbox worker, reconciliation, the idempotency protocol and the rate
limiter) together with the Postgres tables, row locks and transactions they rely on, and proves what
those services promise. `dafny verify dfyconfig.toml` checks everything.

## How it is built

- `Base`, `LedgerModel`, `Tables`, `Programs`: 64-bit integers, ledger entries and the balance check, the
  tables, and for every service call its atomic specification `Programs.Apply` (new tables, or the first
  failing check in code order).
- `Store`, `Services`: the service methods as imperative code over a database and an open transaction,
  each proved to do exactly what `Apply` says, and to change nothing on error.
- `Interleaving`: the same calls statement by statement, any number of them at once. A call holds row locks
  (in the three Postgres modes that occur) until it ends, sees committed rows overlaid with its own writes
  (READ COMMITTED), waits when a lock it needs is taken, and may lose its connection between any two
  statements. Committing publishes its row versions.
- `Isolation`, `Alone`, `Serializability`: the central argument. At every moment a running call's local state
  equals what it would be if the call had just started and run alone (`Isolation.Replay`); locks keep this
  true when others commit (`ReplayFrame`); and running alone is `Apply` (`RunsAsSpecified`). So every
  interleaving is the serial execution in commit order, and (`Witness`) every serial execution is a schedule.
- `Effects`: what each operation refuses and writes, column by column, in terms of the tables alone. Since every
  commit is the specified one and every abort the specified error, this holds under any schedule.
- `Invariants`, `Safety`, `Bookings`: what every operation keeps, lifted to every reachable state.
- `Progress`, `CoveredTransfers`: no deadlock, termination, and the repository's concurrency test for all inputs.
- `Idempotency`, `OncePerKey`, `Ownership`: transfer handlers on top of the concurrent system. A handler's INSERT,
  transfer and UPDATE are calls of that system, run statement by statement; handlers die at any point, and any reply
  may get lost. `HandlerRuns` has the runs that show where the promises end.
- `Outbox`, `Reconciliation`, `RateLimiter`: the workers and the limiter.
- `IdText`: ids as text. Elsewhere a row's id is a number; here printed ids are shown to compare as those numbers.

## Where code and comments disagree

The model follows the code in each case.

- An outbox event gives up on its sixth recorded failure; the comment says after 5 attempts
  (internal/outbox/repository.go:89-96, the UPDATE reads the old `attempts`).
- The fetch query has no `FOR UPDATE SKIP LOCKED`, although the comment above it speaks of it.
- Idempotency keys live in Postgres, not in Redis; the limiter is a fixed window, not a token bucket.
- Reconciliation can fail with nothing wrong: the sums are unbounded numerics read into `int64` variables, so
  once the debits ever made exceed 2^63-1 the run is recorded FAILED with no mismatch. The exact condition is
  `ReachableVerdict`, a concrete reachable state is `FailsWithNothingWrong`.
- The wrapped debits = credits comparison accepts some imbalanced lists; `AcceptedModulo` is the exact
  condition, `BoundIsTight` a three-entry example, and no list of the two callers is affected.
- A replayed answer is called the cached response, but it is the body of the first answer only for a 201. A 403 is
  sent as the text "forbidden" and recorded as another message in JSON, a 400 is sent as bare text and recorded
  inside an object (internal/transfers/handler.go:74-86); `OncePerKey.ReplayFaithfulIff` is the exact condition,
  `HandlerRuns.DeniedReplayDiffers` a run. A 201 agrees as a JSON value; JSONB does not keep its spelling.
- A transfer whose COMMIT succeeded but whose reply got lost is answered and recorded as a 400;
  `OncePerKey.StoredStatusIsTrue` is exact about it, `HandlerRuns.LostReplyIsRecordedAsFailure` a run.
- Locks are taken in the order of the request strings, not of the rows. The order is consistent exactly as far as
  the strings compare as the rows do (`IdText.AscendingIff`, `IdText.SameOrderIff`); with a capital letter in one
  of them two transfers lock the same rows in opposite orders (`IdText.OppositeOrders`).
- Source and destination are told apart by comparing a row's printed id with the request string;
  `IdText.RecognisedRight` is the exact condition under which that is right. Otherwise the row named as destination
  is debited, while ownership was checked for the row named as source (internal/transfers/handler.go:73-74).
  The rest of the project assumes requests spell ids as the database prints them (`IdText.PrintedAsModelled`).
- The limiter's window is cut down to whole seconds, so its bound holds for the window asked for exactly when that is
  a whole number of seconds or at most one (`RateLimiter.WindowBound`); the only caller passes a minute.

## Model

| member | source | states |
|---|---|---|
| `LedgerModel.AcceptedModulo` | internal/ledger/repository.go:28-56 | for every entry list: accepted iff it has at least two entries, one currency, positive amounts, known directions, and true debits and credits agree modulo 2^64 |
| `LedgerModel.CheckExactWithinBound` | internal/ledger/repository.go:33-56 | below a total of 2^64 the wrapping comparison is exact, and an accepted list has an entry of each direction |
| `LedgerModel.TwoEntriesWithinBound` | internal/ledger/repository.go:28-56 | every two-entry list, whatever its int64 amounts, is inside the bound, so both callers' postings are checked exactly |
| `LedgerModel.BoundIsTight` | internal/ledger/repository.go:33-56 | three entries totalling exactly 2^64 are accepted although there is no credit |
| `LedgerModel.RefusedFor` | internal/ledger/repository.go:28-56 | the exact reason of a refusal: too few entries, else the first bad entry for its currency before its amount before its direction, else imbalance |
| `Services.CheckEntries` | internal/ledger/repository.go:28-56 | the int64 loop with early returns decides as the specification: the first complaint in list order, then the wrapped comparison |
| `Services.CreateTransaction` | internal/ledger/repository.go:28-92 | links every entry to the drawn id in place and appends one transaction and its entries, or refuses: for the check's reason and writing nothing, else iff the id is taken, else iff an entry's account is unknown |
| `Services.ExecuteTransfer` | internal/transfers/service.go:43-174 | alone on the database: the specified new tables and transfer, or the first failing check's error with the tables untouched; the debit can never fail after the funds check |
| `Services.CreatePaymentRow` | internal/payments/service.go:43-69 | a payment row in PROCESSING or FAILED with its unique reference indexed, or the constraint that refused it |
| `Services.ProcessWebhook` | internal/payments/service.go:71-166 | alone: dedup key, status change, credit, ledger pair and event all together, or an error and no trace |
| `Services.CreateWalletAndAccount` | internal/wallets/repository.go:32-68 | account and wallet appear together with zero balances, or neither does |
| `Services.UpdateWalletStatus` | internal/wallets/repository.go:92-108 | changes one wallet's status only; a missing wallet is an error |
| `Effects.TransferAnswer` | internal/transfers/service.go:50-170 | for every request on sound tables, which answer it gets: each error iff its check is the first to fail, success iff none does |
| `Effects.TransferWrites` | internal/transfers/service.go:109-166 | a committed transfer writes two balances, one transfer row, one ledger transaction with a debit of the source's and a credit of the destination's account in the request's currency, one event, and nothing else |
| `Effects.WebhookAnswer` | internal/payments/service.go:83-177 | for every webhook on sound tables, which answer it gets: duplicate, unknown payment, refused transition (all but PROCESSING to SUCCEEDED or FAILED and CREATED to PROCESSING or FAILED), and for a success the reasons it can fail |
| `Effects.WebhookStores` | internal/payments/service.go:83-165 | a committed webhook stores its key, the payment's new status, one event with the payment's terms, and moves no money unless it reports success |
| `Effects.SuccessPosts` | internal/payments/service.go:129-153 | a committed success credits the payment's wallet and posts a debit of the external account and a credit of the wallet's, with the payment's amount and currency |
| `Effects.FailureReported` | internal/payments/service.go:168-177 | a first failure report for a processing payment always commits, fails the payment and moves no money |
| `Effects.PaymentAnswer` | internal/payments/service.go:43-69 | when a payment row is refused, and the columns of the row: PROCESSING or FAILED as the provider answered |
| `Effects.WalletAnswer` | internal/wallets/repository.go:39-58 | when a wallet is refused, and the columns of both rows: kind, owner, currency, zero balances, ACTIVE |
| `Effects.StatusAnswer` | internal/wallets/repository.go:92-108 | the status asked for is stored in that wallet and nothing else changes; refused iff the wallet does not exist |
| `Effects.KeyAnswer` | internal/idempotency/repository.go:43-91 | an INSERT stores the request in progress, refused iff the key exists; an UPDATE stores status, answer and code and keeps the request |
| `Isolation.ReplayFrame` | internal/transfers/service.go:70-118 | what a call has read and written so far is unaffected by any change to rows it holds no lock on, so it would recompute the same local state from the new tables |
| `Isolation.DisjointAgree` | internal/transfers/service.go:70-86 | one call's writes are invisible to the rows, keys and references another call has locked |
| `Alone.TransferAlone` | internal/transfers/service.go:57-170 | the ten statements run alone give exactly the specified tables or error; in particular source and destination are mapped back correctly in both lock orders |
| `Alone.WebhookAlone` | internal/payments/service.go:77-165 | the eight statements of a webhook run alone give exactly the specified tables or error, success or not |
| `Alone.RunsAsSpecified` | internal/payments/service.go:77-165 | the same for every operation: statement level and atomic specification agree outcome for outcome |
| `Serializability.NextKeepsTwoPhase` | internal/transfers/service.go:57-170 | every step of every call keeps: held locks never conflict, and each running call is where it would be had it started now and run alone |
| `Serializability.OnlyCommitsWrite` | internal/transfers/service.go:57-170 | the tables change only at a commit, and then as the committed call's specification says; aborts and crashes leave no trace |
| `Serializability.AbortIsApply` | internal/transfers/service.go:70-166 | a call that fails under concurrency fails with the error it would give alone on the tables of that moment |
| `Serializability.Serializable` | internal/transfers/service.go:57-170 | in every reachable state the tables equal running the committed calls one at a time in commit order, each committed call exactly once |
| `Witness.SerialIsReachable` | internal/transfers/service.go:57-170 | conversely, the tables of every one-at-a-time execution are reached by some schedule |
| `Progress.WaiterOrdered` | internal/transfers/service.go:64-86 | whatever a blocked call waits for comes, in one global order (webhook key, payment, reference, account, wallets by id, inserted rows), after everything it holds |
| `Progress.LocksHeld` | internal/transfers/service.go:70-86 | in every reachable state a running call holds exactly the locks of the statements it has run |
| `Progress.ConflictTable` | internal/transfers/service.go:70-83 | which locks exclude each other: on one wallet all but a key share beside a key share or a plain update |
| `Progress.NeverStuck` | internal/transfers/service.go:64-86 | no deadlock: in every reachable state with a running call, some call can take its next step |
| `Progress.EverythingEnds` | internal/transfers/service.go:57-170 | without new calls any schedule has at most as many effective steps as statements are left, and some such schedule finishes every call |
| `Progress.WorkBound` | internal/transfers/service.go:57-170 | the remaining work is at most eleven steps a call |
| `Invariants.WalletsKept` | internal/wallets/repository.go:39-54 | every operation keeps: one account per wallet, none of them external, balance >= 0, locked balance 0, balance = ledger net of the account |
| `Invariants.MoneyKept` | internal/payments/service.go:129-153 | every operation keeps: total of balances = total of succeeded payments = minus the external account's net |
| `Invariants.TransferConserves` | internal/transfers/service.go:109-118 | a transfer leaves the total of all balances unchanged |
| `Invariants.CreditsKept` | internal/payments/service.go:116-153 | every operation keeps: a payment has one PAYMENT ledger transaction iff it has succeeded, else none |
| `Invariants.OutboxKept` | internal/outbox/repository.go:26-38 | every operation keeps: the outbox holds, in order, one event per transfer and one per payment status change, with matching id, status, amount and currency |
| `Safety.BalanceEqualsLedger` | internal/transfers/service.go:109-151 | in every reachable state each wallet's available + locked is credits minus debits of its own account, within [0, 2^63) |
| `Safety.Conservation` | internal/payments/service.go:129-153 | in every reachable state debits equal credits, and wallets together hold exactly what succeeded payments brought in, minus-net of the external account |
| `Safety.CreditedIffSucceeded` | internal/payments/service.go:83-153 | in every reachable state, over any webhooks in any interleaving, a payment is credited exactly once iff it has succeeded |
| `Safety.OutboxIsExact` | internal/transfers/service.go:155-170 | in every reachable state events match committed transfers and status changes one to one, and no transfer id or webhook key repeats |
| `Safety.NoOverdraftWithoutSchema` | internal/transfers/service.go:105-118 | under any interleaving no transfer or credit is ever aborted by the schema's balance CHECK: the funds check under lock suffices |
| `Safety.FreezeRespected` | internal/transfers/service.go:98-118 | at the instant a transfer commits both wallets are ACTIVE and in its currency, the source loses and the destination gains exactly the amount, and no other wallet changes |
| `Safety.PaymentsOnlyAdvance` | internal/payments/service.go:168-177 | over any further run a payment keeps its terms, its status only moves up the order, and SUCCEEDED and FAILED stay |
| `Safety.NothingSettles` | db/migrations/20240101000001_ledger_schema.sql:14-23 | if the external account row is never inserted, no payment succeeds and all wallets together hold nothing, whatever is attempted |
| `Safety.SettlesIffExternal` | internal/payments/service.go:129-153 | a first success report for a processing payment whose amount fits commits iff the external account row exists |
| `Bookings.LedgerExplained` | internal/transfers/service.go:141-153 | in every reachable state each ledger transaction is one debit and one credit of the same money, and books a committed transfer (amount, currency, its wallets' accounts) or a settled payment (amount, currency, external account to its wallet's) |
| `Bookings.EverythingBooked` | internal/payments/service.go:139-152 | in every reachable state each transfer and each settled payment is booked, and none twice |
| `CoveredTransfers.NeverRefused` | internal/transfers/service.go:98-118 | while all requested transfers are covered by the starting balances, no unfinished one could be refused at any moment of any schedule |
| `CoveredTransfers.AllCommit` | internal/transfers/service_test.go:58-118 | the concurrency test for all inputs: under every schedule no covered transfer fails, and once none is running every wallet is at start - out + in |
| `CoveredTransfers.AllCommitEventually` | internal/transfers/service_test.go:67-118 | a schedule within the remaining work brings all covered transfers to their commit |
| `Idempotency.TryAcquire` | internal/idempotency/repository.go:43-82 | a new key is stored in progress; a taken one changes nothing and gives the in-progress error or the stored record |
| `Idempotency.Complete` | internal/idempotency/repository.go:84-91 | records the answer of the key, as specified |
| `Idempotency.HandleTransfer` | internal/transfers/handler.go:32-95 | with nothing else running: a used key is answered from its record without any change; a new one gets 403 and no change but its record iff the wallet read fails or the source is missing or is not the caller's and the caller is not the system, else 201 or 400 as the transfer decides, with the body the code sends and the (different) one it records |
| `Idempotency.HandlersStayReachable` | internal/transfers/handler.go:53-94 | whatever the handlers do, the database only goes through states of the concurrent system, so all its guarantees hold beside these |
| `OncePerKey.TakeKeeps` | internal/transfers/handler.go:53-94 | every move of any number of handlers, and every statement, commit, abort and crash of their calls, keeps the protocol's invariant |
| `OncePerKey.AtMostOnce` | internal/transfers/handler.go:53-90 | at most one committed transfer per key in every run, with duplicates, deaths and lost replies, although transfers.idempotency_key is not unique |
| `OncePerKey.OneOwner` | internal/idempotency/repository.go:43-53 | only a request whose INSERT committed goes on, and no two do for one key |
| `OncePerKey.CompletedIsFinal` | internal/idempotency/repository.go:84-91 | no move changes a completed record, although the UPDATE has no guard |
| `OncePerKey.StoredStatusIsTrue` | internal/transfers/handler.go:80-90 | the stored status is 201 iff one committed transfer carries the key and the owner got its reply, and then the stored answer is that transfer |
| `OncePerKey.SameCode` | internal/transfers/handler.go:64-94 | all final answers of one key have the same status code |
| `OncePerKey.ReplaysAgree` | internal/transfers/handler.go:64-70 | any two replays of one key have the same body |
| `OncePerKey.ReplayFaithfulIff` | internal/transfers/handler.go:64-94 | a replay has the body the first caller was sent iff the code is 201 |
| `OncePerKey.FirstReply` | internal/transfers/handler.go:72-94 | the owner's reply is 403 "forbidden" iff it called no transfer, 201 with the transfer it made iff it heard of its commit, else 400 with the error's text; and what the record holds for each |
| `OncePerKey.ReadReply` | internal/transfers/handler.go:54-70 | after a failed INSERT: 500 without a record, 409 while in progress, else the recorded code and answer |
| `OncePerKey.RepliesHeard` | internal/transfers/handler.go:54-90 | what a handler concludes from each reply, heard or lost |
| `Ownership.OnlyOwnersTransfer` | internal/transfers/handler.go:72-81 | in every run a handler that has called its transfer acts for the system or for the owner of the source wallet |
| `Ownership.EveryTransferAuthorised` | internal/transfers/handler.go:72-81 | in every run each committed transfer was asked for, in all its terms, by the system or by the owner of its source |
| `Ownership.CheckPasses` | internal/transfers/handler.go:73-78 | the check passes iff the wallet was read and is the caller's, or the caller is the system; otherwise the request ends denied without a transfer |
| `HandlerRuns.DeniedReplayDiffers` | internal/transfers/handler.go:73-78 | for every request: a run (its wallet does not exist) in which it is refused with 403 and its replay has another body |
| `HandlerRuns.LostReplyIsRecordedAsFailure` | internal/transfers/handler.go:81-87 | a run in which the one transfer of a key is committed and recorded as 400 |
| `Outbox.Repository.FetchPendingEvents` | internal/outbox/repository.go:40-75 | returns distinct due rows, oldest first, at most the limit, leaving none out that is older than a returned one |
| `Outbox.Repository.MarkFailed` | internal/outbox/repository.go:86-101 | one more attempt, the next retry exactly 10s * 2^attempts from now with the old attempts (10, 20, 40, 80, 160, 320 s), FAILED from the sixth, no other column |
| `Outbox.ProcessBatch` | internal/outbox/worker.go:39-59 | one tick publishes or charges exactly each fetched row, as its publish and UPDATE turned out, and no other row |
| `Outbox.DeliveryStates` | internal/outbox/worker.go:39-59 | in every run of one worker, restarts included: PENDING has at most 5 attempts, FAILED exactly 6, PUBLISHED was produced at least once, and nothing is produced before created + 10s * (2^failures - 1) |
| `Outbox.RetryTimes` | internal/outbox/repository.go:86-101 | in every run of one worker: attempts is the number of recorded failures, next_retry_at exactly the creation or the last failure plus 10s doubled per failure, FAILED iff six failures, PUBLISHED iff produced and marked |
| `Outbox.FinalAndIntact` | internal/outbox/repository.go:77-101 | PUBLISHED and FAILED are final and delivery never alters an event |
| `Outbox.NoStarvation` | internal/outbox/worker.go:39-59 | a due event with N pending rows ahead of it is published or charged with a failure within floor(6N/50) + 1 batches, in every steady run that fetches so often and works off its last batch, whatever waiting and committing falls in between, although failing rows keep re-entering in front |
| `Outbox.TriedInTheEnd` | internal/outbox/worker.go:46-58 | at the end of such a run the event is published or has more attempts than before |
| `Reconciliation.JoinIsNet` | internal/reconciliation/repository.go:71-86 | GROUP BY, LEFT JOIN and COALESCE give each account its credits minus debits, zero without entries |
| `Reconciliation.JoinCounts` | internal/reconciliation/repository.go:80-97 | the join has every wallet exactly once |
| `Reconciliation.CheckGlobalLedgerBalance` | internal/reconciliation/repository.go:56-66 | the scan accumulates the true totals of both directions and the number of distinct transactions, or fails when a total does not fit an int64 |
| `Reconciliation.CheckWalletBalances` | internal/reconciliation/repository.go:68-116 | counts every wallet once and collects exactly the wallets whose total differs from their account's net |
| `Reconciliation.RunReconciliation` | internal/reconciliation/worker.go:36-87 | the stored status is PASSED iff debits equal credits in the first snapshot and every wallet's total equals its account's net in the second, all readable as int64; the counts are all wallets, all distinct transactions and [debits != credits] plus the mismatching wallets; one item per mismatch and no other |
| `Reconciliation.ReachableVerdict` | internal/reconciliation/worker.go:48-86 | on any two reachable states there is no mismatch; the run passes iff the total of all debits is at most 2^63-1, and is otherwise FAILED with zero mismatches |
| `Witness.FailsWithNothingWrong` | internal/reconciliation/worker.go:48-54 | a reachable state whose books agree and whose reconciliation fails |
| `RateLimiter.Client.Allow` | internal/redis/client.go:47-79 | refuses without touching anything iff the key exists, has not expired and is at its limit; else counts, the first hit setting the expiry to the window's whole seconds (at least one) from now; other keys are untouched |
| `RateLimiter.SpanBound` | internal/redis/client.go:49-66 | over any run with a non-decreasing clock, an interval as long as the expiry set on the counter holds at most 2 * limit - 1 allowed requests (limit below one counts as one), and a counter's own window at most limit |
| `RateLimiter.BoundIsReached` | internal/redis/client.go:49-66 | for every limit and window a run reaches 2 * limit - 1 |
| `RateLimiter.WindowBound` | internal/redis/client.go:47-68 | every window of the length asked for holds at most 2 * limit - 1 in all runs iff that length is a whole number of seconds or at most one second |
| `IdText.PrintOrder` | internal/transfers/service.go:65-68 | printed ids compare as strings exactly as the rows' numbers do |
| `IdText.ParseBraced` | internal/transfers/service.go:72-75 | a printed id in braces denotes the same row, as the printed id itself does (`ParsePrinted`) |
| `IdText.PrintLayout` | db/migrations/20240101000000_initial_schema.sql:20-32 | a printed id has 36 characters with the hyphens of a UUID |
| `IdText.LessIs` | internal/transfers/service.go:66 | the string comparison: the first difference decides, a proper prefix is smaller |
| `IdText.PrintedAsModelled` | internal/transfers/service.go:64-96 | with printed ids the strings give the modelled lock order and tell source and destination apart |
| `IdText.RecognisedRight` | internal/transfers/service.go:64-96 | for all spellings of two rows: told apart correctly iff the source is spelled as printed, or sorts after the destination, or the rows are one; otherwise exchanged |
| `IdText.AscendingIff` | internal/transfers/service.go:64-68 | a transfer locks its rows in ascending order iff its strings compare as the rows do |
| `IdText.SameOrderIff` | internal/transfers/service.go:64-68 | two transfers over the same rows, in either direction, lock them in one order iff both compare as the rows do or neither does |
| `IdText.OppositeOrders` | internal/transfers/service.go:64-96 | for any two rows whose printed ids start with a letter: spellings with which two transfers lock them in opposite orders, and one debits its destination |

## Left out

- HTTP routing, JSON, authentication, HMAC signatures, metrics and logging: plumbing; ownership and payload fields are inputs.
- The Kafka client and the provider simulator: their outcomes are nondeterministic inputs.
- Payloads and answers as text: an event is its typed fields, a stored answer a JSON value; timestamps inside them are not modelled.
- Column widths (VARCHAR(n)), wallet versions, created_at and updated_at outside the outbox: no property here depends on them.
- The users table and its foreign key: an owner is just stored.
- FOR KEY SHARE locks on accounts, idempotency keys and ledger rows: they conflict with nothing these services do; the one on wallets is modelled.
- Random UUIDs: drawn ids are inputs, and a repeated one meets its primary key; only an all-zero account id is excluded.
- Several outbox workers at once: the fetch takes no lock and the marks are unguarded, so finality and the attempt bounds are for one worker.
- Outbox.NoStarvation: assumes the worker is not restarted, the marks succeed and no older event becomes visible later, without which an event can be overtaken forever.
- RateLimiter.WindowBound: divides the window exactly; window.Seconds() is a float64, which for windows of months may round a fraction just under a second up.
- Reconciliation.CheckWalletBalances: says nothing when available + locked overflows a bigint inside the query, where the loop sees the rows end early; no reachable state has that.
- Errors of the connection midway through reading rows, and failed writes of reconciliation rows: not modelled.
- Per-currency agreement of wallets and ledger for payments: the code does not check the wallet's currency there.
- Listings of transactions, wallets and runs, the Redis cache, the frontend: read-only or cosmetic.
