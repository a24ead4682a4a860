# AutoPay: the wallet ledger, its workers and its token managers

A Dafny model of how AutoPay moves money. Users have a wallet balance; bills are paid from it through a
provider; webhooks credit wallets and settle payouts; a scheduler releases bills that fell due. The project
proves what must hold over every run of these parts together, and does the same for the two small protocols
beside them: the provider's access token shared by coroutines, and refresh tokens with rotation.

| file | contents |
|---|---|
| `Ledger.dfy` | the committed database and what each committed transaction does to it (the atomic machine) |
| `LedgerTotals.dfy` | sums over all transactions |
| `LedgerInvariant.dfy` | the invariant: conservation, no negative balance, bill status against debits |
| `LedgerOutcomes.dfy` | what each operation writes, column by column, and how a failure undoes a payout |
| `WebhookLaws.dfy` | repeats, order and finality of webhook deliveries |
| `Commutation.dfy` | reordering of batches of commuting steps |
| `BillLifecycle.dfy` | bounds on status changes and on debits per bill |
| `PayoutWorkers.dfy` | the interleaved machine: any number of `execute_payout` workers with row locks and private writes |
| `PayoutSession.dfy` | the session code as it stands: payout, refund, confirmation, endpoints, webhook handlers, scheduler job |
| `Scheduler.dfy`, `Decisions.dfy` | the scheduler tick and the payment rule |
| `Money.dfy` | naira and kobo |
| `NombaTokens.dfy` | the access-token manager |
| `RefreshTokens.dfy` | refresh-token rotation with reuse detection |

## How the model is put together

**Two levels.** In the atomic machine (`Ledger.Apply`) a step is one committed database transaction; an attempt
that is refused, and so rolled back, changes nothing. In the interleaved machine (`PayoutWorkers.Next`) a payout is
a worker that locks the bill row, locks the user row, checks, buffers its writes, waits for the provider three
times, subtracts, and commits or rolls back, with other workers and other transactions in between. The main
theorem of that module says that the second machine refines the first, so everything proved of the ledger holds of
the committed store under every interleaving. The sequential code (`PayoutSession.Session`) is proved against the
same functions, and `ExecutePayout` against the worker as well.

**Assumptions.** They are stated where they are used, and they are these:

- `charge.success` events name credits. The handler looks a transaction up by reference alone
  (app/api/webhooks.py:140-142), and `StepKeepsInvIffSafe` shows that this is exactly what the invariant needs;
  `StrayChargeBreaksInv` is a run in which it fails.
- Event amounts are not negative; bill amounts and fees are whole kobo and not negative. The fee is a parameter of
  every step and may change from one step to the next. app/core/config.py, where it is set, is not part of this model.
- The two `FOR UPDATE` reads of `execute_payout` return the current rows. Transactions that read without
  `FOR UPDATE` are single steps, possible when the rows they change are not locked by a worker.
- References made by `_new_reference` are distinct from each other and from those of credits.
- Every caller of `execute_payout` rolls back when it raises, as app/api/bills.py:246-257 does.
- Pending credit rows are inserted from outside, as in tests/integration/test_webhook_endpoints.py:107-118.
- Provider replies, times, references, event ids and tokens are inputs.

**History.** `Txn.credited`, `Row.chain`, `State.logins` and `Counts` are not stored by the program. They record
what happened so that theorems can speak about it, and no branch reads them.

**Code and documentation.** The module comment of app/services/payout.py:13-15 says that the provider is called
after the bill is marked `processing`; that mark is private to the session until the commit, and what serializes
two attempts is the row lock. The docstring at app/services/payout.py:92-96 expects a bill to stay in `processing` when
an unknown exception escapes; the caller's rollback restores its old status. The model follows the code in both.

## Model

| member | source | states |
|---|---|---|
| `LedgerInvariant.StepKeepsInvIffSafe` | app/api/webhooks.py:140-171 | every step (new rows, payout, webhook, cancel, scheduler) keeps conservation, non-negative balances and the agreement of bill status, retry counter and debits, exactly if it is not a charge that hits a debit or overdraws |
| `LedgerInvariant.DeliveryKeepsInvIffSafe` | app/api/webhooks.py:65-197 | the same for one delivery of any event, in both directions |
| `LedgerInvariant.PayoutKeepsInv` | app/services/payout.py:118-174 | a committed payout keeps the invariant, whatever the fee |
| `LedgerInvariant.RefundKeepsInv` | app/services/payout.py:404-415 | a failed transfer keeps it: refund, retry count and new status fit together |
| `LedgerInvariant.SuccessKeepsInv` | app/services/payout.py:393-395 | a successful transfer keeps it |
| `LedgerInvariant.CreditKeepsInv` | app/api/webhooks.py:165-173 | crediting a wallet for a credit row keeps it |
| `LedgerInvariant.StatusChangeKeepsInv` | app/api/bills.py:278-285 | cancelling and releasing keep it: neither leaves a status that has a live debit |
| `LedgerInvariant.InvOverRuns` | app/services/payout.py:8-18 | the invariant holds after every run; balance = credits applied - (amount + fee) over debits in processing or success |
| `LedgerInvariant.SeparateReferencesAreSafe` | app/services/payout.py:65-67 | charges under references that no payout uses, with amounts that are not negative, satisfy the assumption at every step |
| `LedgerInvariant.StrayChargeBreaksInv` | app/api/webhooks.py:140-171 | a concrete run whose last charge names a payout: invariant before, no invariant after |
| `LedgerInvariant.ChargedAtMostOnce` | app/services/payout.py:118-133 | a bill never has two debits that have not failed; `processing` iff one of them is processing, `paid` iff one succeeded |
| `LedgerTotals.TotalWithout` | app/models/transaction.py:16-60 | sums over the transactions table do not depend on the order of its rows |
| `LedgerTotals.CountOfOne` | app/models/transaction.py:16-60 | a count of one over the table means exactly one such row |
| `LedgerOutcomes.PayoutColumns` | app/services/payout.py:119-174 | which bills can be paid, with the statuses written out, and every column a payout writes: balance, bill status, and a processing debit with the bill's amount and the fee in their own columns |
| `LedgerOutcomes.FailureColumns` | app/services/payout.py:403-428 | `transfer.failed` and `transfer.reversed` mark the debit failed, return amount + fee, count a retry, and set `scheduled`, or `failed` at the last retry |
| `LedgerOutcomes.SuccessColumns` | app/services/payout.py:393-395 | `transfer.success` marks debit and bill and moves no money |
| `LedgerOutcomes.ChargeColumns` | app/api/webhooks.py:162-171 | a charge adds its amount, or nothing if it carries none, and marks the row |
| `LedgerOutcomes.OtherDeliveriesColumns` | app/api/webhooks.py:101-163 | every other delivery moves nothing; which of them leave their event id |
| `LedgerOutcomes.CancelColumns` | app/api/bills.py:275-285 | whose bills can be cancelled, in which statuses |
| `LedgerOutcomes.SchedulerTurnColumns` | app/core/scheduler.py:156-181 | a scheduler turn releases a scheduled, due, affordable bill and does nothing else |
| `LedgerOutcomes.FailureUndoesPayout` | app/services/payout.py:404-415 | a payout and the failure of its transfer together leave every wallet as it was; of the bill, status and retry count differ |
| `LedgerOutcomes.FailedPayoutIsRetried` | app/core/scheduler.py:139-181 | with retries left, the failed bill is released by the next tick after its due date and can be paid again |
| `LedgerOutcomes.ExhaustedBillWaitsForItsOwner` | app/services/payout.py:119-133 | without, no tick releases it, but its owner can still pay it |
| `WebhookLaws.InertIffNoChange` | app/api/webhooks.py:65-163 | a delivery changes nothing exactly if its id is recorded or it is a charge on a path that returns before the commit |
| `WebhookLaws.InertStaysInert` | app/api/webhooks.py:162-163 | such a delivery stays without effect whatever happens next |
| `WebhookLaws.DeliveriesCommute` | app/services/payout.py:379-428 | two deliveries with different ids and references commute, also when both concern one bill |
| `WebhookLaws.TwoOpenDebitsDoNotCommute` | app/services/payout.py:393-415 | without that invariant they would not: a success and a failure for two open debits of one bill give different stores in the two orders |
| `WebhookLaws.InvMeansQuiet` | app/services/payout.py:129-133 | in every reachable store at most one transaction of a bill can still be settled, which is what commutation rests on |
| `WebhookLaws.Confluence` | app/api/webhooks.py:101-104 | a batch with distinct event ids and at most one event per reference gives the same store in every order |
| `WebhookLaws.FirstOutcomeIsFinal` | app/services/payout.py:379-387 | over any run, a debit that is `success` or `failed` never changes again |
| `WebhookLaws.RefundedAtMostOnce` | app/services/payout.py:404-409 | over any run, transfer webhooks pay back exactly the recorded amount + fee if the first outcome is a failure, and nothing otherwise |
| `BillLifecycle.StepMovesDown` | app/services/payout.py:393-415 | every status change lowers (retries left, status rank), except a user paying a failed bill again |
| `BillLifecycle.StatusChangesAreBounded` | app/core/scheduler.py:157-181 | the number of status changes of a bill in any run is bounded by that measure plus two per repayment |
| `BillLifecycle.AttemptsAreBounded` | app/services/payout.py:287-293 | at most max_retries debits are committed for a bill, plus one per repayment after failure |
| `PayoutWorkers.NextKeepsSound` | app/services/payout.py:98-259 | every move keeps: locks match program counters, snapshots under locks equal the committed rows, buffers hold what the program counter says |
| `PayoutWorkers.CommitIsPayout` | app/services/payout.py:254-259 | what a worker commits after three awaits is the atomic payout step on the store as it is then, and its checks still hold |
| `PayoutWorkers.InterleavingsRefineTheLedger` | app/services/payout.py:98-259 | every interleaving reaches the store of the atomic machine with one payout per commit, in commit order |
| `PayoutWorkers.SafetyUnderInterleaving` | app/services/payout.py:8-18 | conservation, no negative balance and charged-at-most-once in every interleaved run from the empty database |
| `PayoutWorkers.BufferedBalance` | app/services/payout.py:138-156 | a balance is in a worker's buffer only when it is about to commit, and it is not negative |
| `PayoutWorkers.OnlyCommittedAttemptsCount` | app/api/bills.py:246-257 | over any run the ledger sees one payout per worker that commits and none for one that raises |
| `PayoutWorkers.WorkersKeepTheirTask` | app/services/payout.py:78-101 | a worker stays with the bill and reference it was started with |
| `PayoutWorkers.OnlyLockedRowsWait` | app/services/payout.py:98-111 | attempts may start at any time, any provider answer and any fee are possible, and any transaction runs in between unless it concerns a locked bill or user |
| `PayoutWorkers.HeldRowsStay` | app/services/payout.py:98-111 | and leaves every locked row as its holder has read it |
| `PayoutWorkers.NoDeadlock` | app/services/payout.py:98-111 | while a worker is unfinished, some worker can move |
| `PayoutWorkers.AttemptsAreShort` | app/services/payout.py:98-269 | an attempt is over after at most eight moves of its worker |
| `PayoutWorkers.RepeatsChangeNothing` | app/api/webhooks.py:65-94 | deleting every repeated delivery from an interleaved run leaves a possible run with the same final configuration |
| `PayoutWorkers.RepeatsAreGone` | app/api/webhooks.py:65-94 | in that run every delivered event is delivered once, and all other moves are still there |
| `PayoutSession.Session.ExecutePayout` | app/services/payout.py:78-269 | initiates exactly when every check passes and every call is granted, then debits the owner and files a processing debit with the bill's amount and the fee; when it raises no balance has changed; agrees with the worker run alone; when each of 404, 409, 402, 422 and 502 is raised |
| `PayoutSession.Session.AskProvider` | app/services/payout.py:188-252 | which provider errors are refunded in the session and which escape as they are; when 422 and 502 are raised |
| `PayoutSession.SoloEndings` | app/services/payout.py:138-259 | the worker of the interleaved machine and the sequential code have the same three endings |
| `PayoutSession.RaisedColumns` | app/services/payout.py:158-174 | every column a session holds when a provider error escapes, and when it is caught |
| `PayoutSession.Session.RefundOnFailure` | app/services/payout.py:274-303 | debit failed, one more retry, bill `scheduled` or, at the last retry, `failed`; nothing else changes |
| `PayoutSession.Session.ConfirmPayout` | app/services/payout.py:350-435 | which references are settled, and the debit, bill and balance after success and after failure, column by column |
| `PayoutSession.Session.PayBill` | app/api/bills.py:236-264 | commits the debit, the new balance and the bill in `processing`, or leaves the database exactly as it was; when each error is returned |
| `PayoutSession.Session.CancelBill` | app/api/bills.py:270-290 | which statuses can be cancelled, by whom, and what changes |
| `PayoutSession.Session.CreateBill` | app/api/bills.py:170-195 | adds a pending bill with no retries used |
| `PayoutSession.Session.HandleChargeSuccess` | app/api/webhooks.py:129-181 | which exits commit, and the balance and row they commit |
| `PayoutSession.Session.HandleTransferUpdate` | app/api/webhooks.py:184-197 | settles as success for `transfer.success` and as failure for the two other kinds, and commits |
| `PayoutSession.Session.NombaWebhook` | app/api/webhooks.py:46-124 | one request does one delivery step; a replay is reported iff the id is recorded; what success, failure and reversal do to balance, debit and bill |
| `PayoutSession.Session.ProcessScheduledBills` | app/core/scheduler.py:118-184 | the loop over the due bills, in any order, releases exactly the scheduled, due and affordable ones |
| `Scheduler.TickInAnyOrder` | app/core/scheduler.py:139-181 | every visiting order of the due bills releases exactly the scheduled ones that are due and individually affordable, and changes nothing else |
| `Scheduler.TickTwice` | app/core/scheduler.py:118-121 | a second tick at the same time and balances is a no-op |
| `Scheduler.ReleasedBillsHaveRetriesLeft` | app/core/scheduler.py:173-181 | a bill that used up its retries is never released |
| `Scheduler.TickKeepsInv` | app/core/scheduler.py:153-181 | a tick keeps the ledger's invariant |
| `Decisions.DecideOnTheClock` | app/agents/nodes.py:36-63 | pay_now iff affordable and due in less than four days; hold iff not affordable; a due bill is never scheduled |
| `Decisions.DaysUntil` | app/agents/nodes.py:75 | the day count rounds down, also when overdue |
| `Money.RoundHalfEvenIsTheNearest` | app/services/payout.py:70-73 | rounding to kobo is the one nearest integer, ties to even (both directions) |
| `Money.KoboIsTheNearest` | app/services/payout.py:70-73 | the same for the conversion of any naira amount |
| `Money.NearestMeansNoCloserInteger` | app/services/payout.py:70-73 | no integer is closer to the input than the result |
| `Money.KoboIsMonotone` | app/services/payout.py:70-73 | a larger amount never has fewer kobo |
| `Money.KoboRoundTrip` | app/services/payments/nomba.py:377-382 | kobo to naira and back through the webhook parser, or through rounding, is the identity for all integers |
| `Money.TruncationError` | app/services/payments/nomba.py:489-492 | parsing truncates towards zero, by less than one kobo |
| `Money.TruncationLoss` | app/services/payments/nomba.py:489-492 | n parsed amounts lose less than n kobo in total |
| `NombaTokens.StepKeepsSound` | app/services/payments/nomba.py:225-282 | every step keeps: the lock matches the program counters, whoever is refreshing finds a token that is not fresh, send counts, acquisition count |
| `NombaTokens.OneCallInFlight` | app/services/payments/nomba.py:228-234 | at most one issue or refresh call is in flight |
| `NombaTokens.RefreshesHaveTokens` | app/services/payments/nomba.py:193-206 | a refresh call is only in flight with an access token and a refresh token that is not empty |
| `NombaTokens.HistoryIsHonest` | app/services/payments/nomba.py:225-282 | the counters of the bounds below count grants, expiries, invalidations, stale arrivals and sends, each exactly when it happens |
| `NombaTokens.OnlyTheLockHolderWrites` | app/services/payments/nomba.py:188-223 | the token fields change only by a step of the lock holder |
| `NombaTokens.EnsureTokenReturnsNoneIff` | app/services/payments/nomba.py:225-235 | None is returned exactly when the grant just accepted carried a null token |
| `NombaTokens.AcquisitionsAreBounded` | app/services/payments/nomba.py:225-282 | in any run, successful acquisitions number at most 1 + expiries + invalidations + tokens stale on arrival |
| `NombaTokens.SendsAreBounded` | app/services/payments/nomba.py:262-277 | no request is sent more than twice, nor without a token if no null was granted |
| `NombaTokens.RequestsAreShort` | app/services/payments/nomba.py:255-282 | a request is over after at most 19 of its own steps |
| `NombaTokens.NoDeadlock` | app/services/payments/nomba.py:228-276 | while a request is unfinished, some request can move |
| `NombaTokens.OnlyTheLockIsWaitedFor` | app/services/payments/nomba.py:228-275 | nothing but the lock makes a request wait, and every answer of the provider is possible |
| `NombaTokens.WholeRequestGoesOn` | app/services/payments/nomba.py:274-282 | after a first 401 or 403 the access token is dropped and the request starts over once; any other answer ends it |
| `NombaTokens.DriveWithoutToken` | app/services/payments/nomba.py:231-232 | without an access token a request issues one, whatever a refresh would answer |
| `NombaTokens.NombaProvider.TokenIsFresh` | app/services/payments/nomba.py:153-158 | fresh means present and more than five minutes from expiry |
| `NombaTokens.NombaProvider.IssueToken` | app/services/payments/nomba.py:160-190 | a grant replaces all three fields; any failure changes none |
| `NombaTokens.NombaProvider.RefreshTokenCall` | app/services/payments/nomba.py:192-223 | when it refreshes, when it falls back to issuing, and all three fields afterwards, including the old refresh token when the answer has none |
| `NombaTokens.NombaProvider.EnsureToken` | app/services/payments/nomba.py:225-235 | keeps a fresh token, issues when there is none, otherwise refreshes, with all three fields spelled out; ends where the concurrent machine's request ends |
| `NombaTokens.NombaProvider.Send` | app/services/payments/nomba.py:239-282 | one retry after 401 or 403, with an issued token; outcome, number of sends and fields; ends where the concurrent machine's request ends |
| `RefreshTokens.AcceptedAtMostOnce` | app/services/auth.py:178-212 | over any run each token is accepted at most once |
| `RefreshTokens.ReplaySignsOutForGood` | app/services/auth.py:186-194 | after a revoked, expired or unknown token is presented, no earlier token of that user is ever accepted |
| `RefreshTokens.LogoutIsFinal` | app/services/auth.py:238-254 | a token logged out, alone or with all of its user's, is never accepted again in any run |
| `RefreshTokens.IssuedTokenIsLive` | app/services/auth.py:178-212 | a token from a login or a rotation is accepted next for its user up to its own expiry, and refused later or for anyone else |
| `RefreshTokens.ReplaySparesOthers` | app/services/auth.py:226-235 | and nobody else's tokens change |
| `RefreshTokens.OneLiveTokenPerLogin` | app/services/auth.py:195-211 | each login's rotation chain belongs to one user and has at most one live token, over any run |
| `RefreshTokens.AuthService.IssueTokens` | app/services/auth.py:137-156 | stores one live row with this user and expiry, refused if the digest exists |
| `RefreshTokens.AuthService.RotateTokens` | app/services/auth.py:159-212 | accepted iff stored for that user, not revoked, not expired and without collision; the rows after acceptance and after reuse; every other exit leaves the table as it was |
| `RefreshTokens.AuthService.RevokeRefresh` | app/services/auth.py:215-223 | the given token is revoked and no other row changes |
| `RefreshTokens.AuthService.RevokeAllForUser` | app/services/auth.py:226-235 | the loop revokes every outstanding token of the user and no other |
| `RefreshTokens.AuthService.LogoutUser` | app/services/auth.py:238-254 | revokes the given token, or all of the user's, and changes no other row |

## Left out

- InterleavingsRefineTheLedger: webhook, cancel and scheduler transactions are single steps. The source reads the rows they write without a lock, so a stale read between such a read and its write is not covered.
- AcceptedAtMostOnce: a rotation is one step. The source's lookup takes no row lock, so two rotations of one token that overlap in time are not covered.
- ProcessScheduledBills: the loop is proved with nothing else running between its turns; `TickKeepsInv` and the atomic machine cover the turns one by one.
- Send: while the object waits for its own call other coroutines may change its fields; that is in the machine (`NombaTokens.Next`), not in the method.
- Row objects are entries of the session's tables, so aliasing between several loaded copies of a row is not modelled.
- Paying in the same request that uploads a bill (app/api/bills.py:126-152), and the Telegram conversation: bills enter the model through creation.
- The recurring-bill job: the bills it spawns are `AddBill` steps in status `scheduled`; its dates are not modelled.
- Liveness of settlement: a transfer webhook that comes before the payout commits is ignored and still uses up its event id, so a bill may stay in `processing`.
- Agreement with the provider's books after a transport error.
- Column widths, decimal precision and binary floating point of the wire format: amounts are unbounded integers of kobo, and reals where rounding is the point.
- Audit rows, messages, HTTP details, signatures, JSON, JWT and hashing.
- Virtual accounts, KYC, health checks, migrations and seed data: they would add only easy members.
