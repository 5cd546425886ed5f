# The transaction ledger, its jobs and its sessions, verified

This Dafny project models the core of a bank's transaction back end: payments with debit and credit
cards, scheduled and international payments, deposits, the cron job and the per-id endpoint that
execute scheduled rows, the archive job, and login sessions. It proves what every interleaving of these
keeps.

`dafny verify dfyconfig.toml` checks everything. Nothing is executed.

## Layout

| file | content |
|---|---|
| `Schema.dfy` | the tables as values; money in units of 1/10000; digests as injective constructors |
| `Ledger.dfy` | each committed database block as one atomic step (`Guard`, `Run`), and what any log of such steps keeps |
| `Protocol.dfy` | the fine-grained machine: workers, program points, private writes, row locks, aborts anywhere, a queue that rollbacks do not touch |
| `Invariant.dfy` | what holds at each program point, and why other workers cannot disturb it |
| `Preservation.dfy` | every step keeps the invariant; a commit is an atomic block |
| `Theorems.dfy`, `Progress.dfy` | the guarantees over all runs: refinement, conservation, at most once, publish before commit, card race, provenance, deadlock freedom, completion |
| `StaleRead.dfy` | exactly when a balance cached before the lock does harm, and a run that loses money by it |
| `Service.dfy` | the service as methods over tables updated in place, proved against the atomic blocks |
| `Cron.dfy` | the job's loop with its counters, as a fold with other requests in between |
| `Archive.dfy` | the guarded copy into the history table, alone and among everything else, and exactly when overlapping jobs duplicate rows |
| `Sessions.dfy` | login, logout, expiry and the token check, and their runs |

## How to read it

A run of the protocol is a sequence of labelled events, each enabled when it happens; `After` is the
state it leads to from empty tables. An event is one statement of one worker: a lookup, an insertion,
the claim of a scheduled row, the lock of an account, a private write, a send, a commit, or an abort.
`log` records the committed blocks in commit order with the balance each worked from. `Refinement` says
the tables are always those of the atomic ledger run over that log, so every theorem about logs is a
theorem about interleavings; the archive's machine and the cron fold use the same atomic blocks.

Assumptions, each visible in the model:

- Fresh read: under `Fresh` the balance a block works from is the one committed when its lock is granted,
  which is the stated intent (backend/app/crud/account.py:55-56). The session may have loaded the account
  before the lock and keeps loaded objects (backend/app/crud/card.py:49-53,
  backend/app/db/session.py:27); `Cached` models that reading, `CachedReadLosesADeposit` shows it breaks
  conservation, `MoneyOverAnyRun` says by how much, and `BalancedExactlyWhenLockedFresh` says exactly when
  it does: an account's money is balanced throughout if and only if every block that committed its balance
  had locked it with a reading equal to the balance then committed.
- Statements run at READ COMMITTED: plain reads see committed rows, an update of a locked row waits, an
  insertion under a unique key held by an open block waits.
- A commit either takes effect and returns or has no effect. Each cron item has its own transaction, although
  the loop shares one session (backend/app/api/api_v1/endpoints/internal.py:124-132).
- Generated ids and session tokens are never repeated; SHA-256, HMAC and bcrypt are injective; the clock
  does not go back. Each `db.begin()` block of the session tables is one atomic step.
- Request bodies have been validated: amounts are positive with at most four decimals.

Where the code and its documentation disagree the code is followed: the claim tests id and status only,
not the due time (documents/DESIGN_DOCUMENT.md:145-150); a session lives 15 minutes, not an hour; only a
refused address is audited as `login_failed`; the archive uses a not-exists guard, not a high-water mark.

## Model

| member | source | states |
|---|---|---|
| Schema.DigestOfWritten | backend/app/core/security.py:83-102 | sixteen characters have the same digest written in one piece or in groups of four with hyphens, and different ones have different digests |
| Ledger.BlockKeeps | backend/app/services/transaction_service.py:156-207 | any legal block keeps provenance, unique owners and digests, the balance bound 0..10^19-1 and the amounts, and changes existing rows only from `scheduled` to a non-processing status |
| Ledger.ReplayOk | backend/app/models/account.py:26-35 | after any legal log every balance is within the column, and every row has its card's account and stored type |
| Ledger.Lifecycle | backend/app/crud/transaction.py:131-141 | between any two moments of a log no row, card or account disappears and rows evolve only as allowed |
| Ledger.Conservation | backend/app/services/transaction_service.py:327-342 | for an exact log each balance is deposits minus the amounts of completed national debit rows of that origin |
| Ledger.ConservationWithDrift | backend/app/crud/account.py:89-106 | the same law for any log, off by the sum of what the balance-writing blocks misread |
| Ledger.StaleBlockBreaksConservation | backend/app/crud/account.py:68-71 | one block keeps an account's money balanced if and only if it leaves the balance alone or worked from the committed one |
| Ledger.BalancedExactly | backend/app/crud/account.py:68-71 | over a whole log an account's money is balanced at every moment if and only if every block that wrote its balance worked from the balance committed at its turn |
| Ledger.AtMostOnce | backend/app/services/transaction_service.py:257-267 | the number of committed executions of a row is one if the row was scheduled and has left that status, and zero otherwise |
| Ledger.ExactLogIsAtomic | backend/app/services/transaction_service.py:250-288 | a log of exact blocks replays to the atomic run of its operations |
| Ledger.EveryRowWasPaid | backend/app/services/transaction_service.py:166-207 | every stored row was put there by one payment block of the log with the columns and the status that block asked for, spelled out, and differs from that at most in its status |
| Ledger.EveryAccountWasOpened | backend/app/crud/account.py:107-130 | every account was opened by one block, empty and for the user it belongs to |
| Ledger.DeferredEqualsImmediate | backend/app/services/transaction_service.py:269-288 | in every state of the ledger, executing a scheduled row yields the accounts and final status of submitting the payment now with the same card, and sends the same message but for the id, or none in both cases |
| Preservation.CommitIsBlock | backend/app/services/transaction_service.py:294-364 | the private writes a worker gathered, applied at its commit, are the atomic block on the tables as they are then |
| Preservation.CommitKeepsLocked | backend/app/crud/account.py:68-71 | a commit changes nothing that another worker holds locked |
| Preservation.StepKeepsInv | backend/app/services/transaction_service.py:247-291 | every step of any worker keeps the whole invariant |
| Preservation.RunKeepsInv | backend/app/services/transaction_service.py:247-291 | the invariant holds after every run |
| Theorems.Refinement | backend/app/services/transaction_service.py:247-291 | the tables after any interleaving with aborts anywhere equal the atomic ledger over the committed blocks in commit order |
| Theorems.LogGrows | backend/app/services/transaction_service.py:250-288 | the log of an earlier moment is a prefix of the later one |
| Theorems.ConservationOverRuns | backend/app/services/transaction_service.py:334-336 | conservation and the balance bound in every reachable state, for every account |
| Theorems.MoneyOverAnyRun | backend/app/db/session.py:24-31 | with cached readings too, the law holds up to the accumulated drift |
| Theorems.BalancedRuns | backend/app/db/session.py:24-31 | in any run, whatever is cached, an account's money is balanced at every moment if and only if no committed writer of its balance misread it |
| Theorems.LifecycleOverRuns | backend/app/models/transaction.py:36-46 | over any run rows evolve as allowed, terminal rows never change and `processing` is never committed |
| Theorems.PublishBeforeCommit | backend/app/services/transaction_service.py:181-195 | a committed pending row has a message with its id, origin, destination, amount and method, and every message of a committed row carries that row's, the row being pending or still scheduled |
| Theorems.AtMostOneExecution | backend/app/services/transaction_service.py:257-277 | two workers that committed the execution of the same row are the same worker |
| Theorems.LeftScheduledByExecution | backend/app/services/transaction_service.py:257-288 | a row stored as scheduled has left that status if and only if some worker committed its execution |
| Theorems.ExactlyOneProcesses | backend/app/api/api_v1/endpoints/internal.py:128-137 | when all attempts at a scheduled row ended as processed or 409, exactly one processed it and all others were refused |
| Theorems.RollbackLeavesClaimable | backend/app/services/transaction_service.py:250-267 | rolling back a claim leaves tables, log and queue alone and lets a waiting worker claim the row |
| Theorems.OutcomeMatchesEffect | backend/app/services/transaction_service.py:209-220 | a payment returns its row, or 402, exactly when that row was committed, 402 exactly when it failed on submission; other endings committed none |
| Theorems.FailureWritesNothing | backend/app/services/transaction_service.py:250-267 | a worker that ended in 403, 404, 409 or a rollback has no committed payment, execution or deposit |
| Theorems.NotFoundMeansMissing | backend/app/services/transaction_service.py:87-92 | a worker ends in 404 only if, at the moment it looked, the row was unknown, the reversed row was, or the user had no account and no stored card |
| Theorems.UndoneByEvent | backend/app/services/transaction_service.py:250-291 | a worker ends rolled back only by a fault or a value that does not fit, and with a failed refresh only when the refresh failed |
| Theorems.DepositMatchesEffect | backend/app/api/api_v1/endpoints/accounts.py:56-73 | a deposit is reported as credited exactly when it was committed, once, with its amount and to its user's account |
| Theorems.ExecutionMatchesEffect | backend/app/services/transaction_service.py:250-291 | an execution is reported as processed exactly when it was committed, and as 409 only for a row that is not scheduled |
| Theorems.SameDigitsSameCard | backend/app/services/transaction_service.py:79-116 | two resolutions at any two moments of a run, whether their payments are still open, committed, refused or rolled back, give the same card if and only if the sixteen characters are the same, with or without hyphens, and each card is for ever after its caller's |
| Theorems.ForbiddenMeansOthers | backend/app/services/transaction_service.py:79-85 | a payment ends in 403 only when its number is stored for an account of another user |
| Theorems.CardsAsRequested | backend/app/services/transaction_service.py:87-105 | every stored card has the account, the digits and the type of the caller that stored it |
| Theorems.RowsAsRequested | backend/app/services/transaction_service.py:149-207 | over any run every stored row has, column by column, what one worker's request asked for at the moment it began to pay, with the account and type of the stored card of its number |
| Theorems.MessagesAsRequested | backend/app/services/sqs_service.py:53-61 | every message ever sent, of a rolled-back attempt too, repeats the terms of one international request |
| Theorems.RefetchFinds | backend/app/services/transaction_service.py:106-114 | after a conflict the re-fetch finds a row and cannot miss |
| Theorems.ReadCheckMatchesCreator | backend/app/services/transaction_service.py:391-400 | every row was created by one payment worker from its user's stored card, and the read check admits exactly that user |
| Theorems.WaitingRaisesRank | backend/app/services/transaction_service.py:257-288 | whoever is waited for stands higher in the lock order, and an account holder waits for nobody |
| Theorems.NoWaitCycle | backend/app/services/transaction_service.py:257-288 | no chain of waits is longer than two and none closes on itself |
| Theorems.OverflowOnlyWhenTooLarge | backend/app/models/transaction.py:74 | a value is refused only if the payment's amount, or the balance a deposit leads to, exceeds its column, and then the worker has no other way forward |
| Theorems.NoDeadlock | backend/app/services/transaction_service.py:247-291 | for any unfinished worker, it or the one at the end of its chain of waits has a step that is neither an abort nor a failed refresh |
| Progress.StepAdvances | backend/app/services/transaction_service.py:247-291 | each step of a worker changes only that worker's point and brings it closer to its end |
| Progress.EveryRunCanFinish | backend/app/services/transaction_service.py:247-291 | any run can be continued until every worker has its outcome, within nine steps for each worker, with no abort and no failed refresh, and with a value refused only where it does not fit its column |
| StaleRead.BalancedExactlyWhenLockedFresh | backend/app/crud/account.py:51-71 | with cached readings an account's money is balanced at every moment of a run if and only if every block that committed its balance had locked the account with a reading equal to the balance then committed |
| StaleRead.StaleBase | backend/app/crud/account.py:68-71 | while a worker holds an account, the balance it works from differs from the committed one if and only if its lock was granted to a stale reading |
| StaleRead.SeenWasCommitted | backend/app/crud/card.py:49-53 | what a session takes for an account's balance before its lock was the committed balance at some moment of the run |
| StaleRead.CachedButNeverStale | backend/app/db/session.py:24-31 | a run with cached readings in which no lock meets a stale one is a run with fresh reads |
| StaleRead.CachedReadLosesADeposit | backend/app/api/api_v1/endpoints/accounts.py:56-70 | a run with cached balances in which two deposits of 100 commit and the account holds 100 |
| Service.Bank.UpdateStatus | backend/app/crud/transaction.py:105-141 | the conditional transition happens and reports success exactly when the row has the expected status |
| Service.Bank.CreateRow | backend/app/crud/transaction.py:54-103 | a row is stored as given, unless the amount does not fit its column |
| Service.Bank.DeductBalance | backend/app/crud/account.py:73-88 | exactly the named account loses exactly the amount |
| Service.Bank.AddBalance | backend/app/crud/account.py:90-105 | exactly the named account gains exactly the amount |
| Service.Bank.GetDueIds | backend/app/crud/transaction.py:143-163 | exactly the rows in status scheduled whose time is at or before the given one, each once |
| Service.Bank.Publish | backend/app/services/sqs_service.py:53-85 | one message with the row's id, origin, destination, amount and method is appended, unless the send raises, and then none |
| Service.Bank.ProcessNational | backend/app/services/transaction_service.py:294-364 | the final status, the deduction and the stored row, for a new row and for a claimed one; none exactly when the account is missing or the row does not fit |
| Service.Bank.ProcessScheduledTransaction | backend/app/services/transaction_service.py:223-291 | 404 exactly for an unknown row, 409 exactly for one not scheduled; the execution takes place exactly when no fault stops it, with status, deduction and message spelled out; a raised attempt leaves the tables as they were; no pending row is left without its message under any fault |
| Service.AttemptOutcome | backend/app/services/transaction_service.py:250-291 | the specification of an attempt, which the job's fold uses, meets the same rules |
| Service.Bank.ResolveCard | backend/app/services/transaction_service.py:44-116 | hit, creation, missing account and the conflict with a rival insertion; a refusal exactly when the sixteen characters are stored for another user; a new card gets them and the typed type |
| Service.RefusedExactly | backend/app/services/transaction_service.py:79-85 | a resolution refuses exactly a number stored for another user, and a card in use has the number and the caller's account |
| Service.Bank.InsertCard | backend/app/services/transaction_service.py:97-114 | the card is inserted unless its digest is taken, and then the stored card is judged instead |
| Service.ResolutionDecides | backend/app/services/transaction_service.py:79-116 | of no account, not yours and use, each holds exactly when the number is unknown, stored for another user, or stored for the caller |
| Service.Bank.PayWithCard | backend/app/services/transaction_service.py:143-220 | 404 exactly for an unknown reversed row, a posting exactly when it is known, no fault strikes and the amount fits; the posted row, the deduction, the message and the answer column by column from the request, the stored card and the old balance; otherwise the tables are as before |
| Service.Bank.CreateTransaction | backend/app/services/transaction_service.py:119-220 | 403 exactly for sixteen characters stored for another user, 404 exactly without an account for a missed card or without the reversed row, and otherwise what paying with the caller's card comes to; the cards change by the caller's new card and a rival's at most; no pending row is left without its message |
| Service.Bank.CreditAccount | backend/app/crud/account.py:90-105 | the account gains the amount, and nothing else changes, exactly when the new balance has at most fifteen digits before the point, and is rolled back otherwise |
| Service.Bank.AddToOwnAccount | backend/app/api/api_v1/endpoints/accounts.py:56-73 | the deposit goes to the user's own account; a missing account and an overflow leave every balance unchanged |
| Service.PaymentFulfils | backend/app/services/transaction_service.py:166-220 | the atomic payment of a request stores its columns, is scheduled, pending, failed or completed exactly by the rules, deducts exactly a completed debit, sends exactly one message for an international payment routed now, and answers 402 exactly for a failed one |
| Service.PaidKeepsAnnounced | backend/app/services/transaction_service.py:181-195 | no payment, whatever strikes it, leaves a pending row without its message |
| Cron.ProcessIds | backend/app/api/api_v1/endpoints/internal.py:125-142 | the loop leaves the fold of the attempts, its counters are the tallies, and total = processed + skipped + errors whatever fails or interleaves |
| Cron.RunCron | backend/app/api/api_v1/endpoints/internal.py:120-142 | the same for exactly the rows scheduled at or before the given time, each once |
| Cron.ItemOutcome | backend/app/services/transaction_service.py:250-291 | each item of a run, under any faults and with anything committed in between, is one attempt with the outcome the rules give |
| Cron.RunKeepsAnnounced | backend/app/services/transaction_service.py:269-277 | whatever faults strike the job and whatever commits in between, no row is left pending without its message |
| Cron.FaultFreeItem | backend/app/api/api_v1/endpoints/internal.py:129-137 | without faults an item is processed if and only if its row is still scheduled at its turn, skipped otherwise, and is never scheduled again |
| Cron.SoloRun | backend/app/api/api_v1/endpoints/internal.py:125-142 | alone and in any order every item is processed, and rows and balances are those of serving the rows from the purse in turn |
| Archive.HistoryTable.CopyTransactionsToHistory | backend/app/services/archive_service.py:33-98 | appends one row for each completed or failed transaction not yet archived, each column its transaction's or its account's and the stamp the statement's, returns their number, leaves nothing eligible, and introduces neither a duplicate nor a wrong row |
| Archive.ArchiveAgrees | backend/app/services/archive_service.py:45-71 | over any run, overlapping jobs included, every column of every history row equals that of its transaction, or its account's user, as they are now |
| Archive.MayStart | backend/alembic/versions/20260505_1545_initial_schema.py:167-184 | with nothing shared so far, a job's selection keeps it so if and only if every running job holds no row |
| Archive.ArchivedOnce | backend/app/services/archive_service.py:33-38 | at every moment of a run no transaction is archived twice or held twice, if and only if every job started while no running job held a row |
| Archive.NoOverlapArchivesOnce | backend/app/services/archive_service.py:33-38 | in particular when no two jobs overlap |
| Archive.SharedBecomesDuplicate | backend/alembic/versions/20260505_1545_initial_schema.py:167-184 | once a transaction is held twice, some continuation of the run archives it twice |
| Archive.OverlapDuplicates | backend/alembic/versions/20260505_1545_initial_schema.py:167-184 | a run of two overlapping jobs that archives one transaction twice |
| Archive.JobCompletes | backend/app/services/archive_service.py:64-98 | whatever happens between a job's selection and its commit, it inserts one row for each transaction terminal and not archived at the selection, everything terminal at that moment is then archived, and only what became terminal since is left |
| Archive.SecondJobIsEmpty | backend/app/services/archive_service.py:33-38 | a job right after an undisturbed one inserts nothing |
| Sessions.AuthService.Upsert | backend/app/crud/audit_log.py:62-104 | the user has exactly the new session, everyone else what they had |
| Sessions.AuthService.GetByTokenHash | backend/app/crud/audit_log.py:130-154 | a user whose session has the digest, none exactly when there is no such session |
| Sessions.AuthService.Login | backend/app/services/auth_service.py:76-161 | bad credentials, spelled out, change nothing; right ones log in exactly when no address is registered, an empty one is, or it is the caller's, with the session, audit and history entries spelled out; otherwise only the failed-login entry is added |
| Sessions.AuthService.Logout | backend/app/services/auth_service.py:164-193 | the session goes and both logs record it, with a blank digest when there was none |
| Sessions.AuthService.CleanupExpiredSession | backend/app/deps.py:34-57 | the session goes and the history records an expiry |
| Sessions.AuthService.GetCurrentUser | backend/app/deps.py:97-125 | access is granted to a user exactly when that user's session has the token's digest and has not expired |
| Sessions.SessionsEqualHistory | backend/app/services/auth_service.py:136-154 | a session with a digest exists for a user if and only if the user's last history event is a login with it |
| Sessions.AuditMatchesHistory | backend/app/services/auth_service.py:180-193 | the login and logout entries of the audit log are those of the history, one for one and in order |
| Sessions.AcceptedTokenIsCurrent | backend/app/deps.py:97-114 | an accepted token is from the latest login, nothing ended that session, and at most 15 minutes have passed |
| Sessions.TokenLives | backend/app/services/auth_service.py:131-146 | until its user logs in again, logs out or is cleaned up, a login's token is accepted exactly up to 15 minutes after the login's clock reading |
| Sessions.OnceRefusedNeverAccepted | backend/app/deps.py:97-114 | a token refused once after being issued is refused for ever |

## Left out

- Routing, body parsing, rate limits, logging, health checks and the backup job: no state of interest.
- The queue service and the external processor: a send appends one message or raises; no code moves `pending` rows on, and no code credits a destination.
- Registration and admin account creation: opening an account with a zero balance is one atomic step of the protocol, so two racing openings for one user are not split into lookup and insertion.
- Expiry date and last four digits of a card: stored with it, read by no decision.
- Foreign-key share locks and query planning: the locks modelled are row locks of updates and insertions, the unique digest and `FOR UPDATE` on accounts.
- A commit whose acknowledgement is lost: a commit that raises is modelled as having no effect; a failing refresh after the commit is modelled.
- The archived transaction id is not unique in the schema, so a single history for overlapping jobs is not promised; `Archive.MayStart`, `Archive.ArchivedOnce` and `Archive.OverlapDuplicates` say exactly when ids stay unique.
- Sessions.AcceptedTokenIsCurrent: does not claim that a live session survives until it expires, because the clean-up deletes by user without testing the expiry again.
- Sessions.AuthService.Login: does not claim that every failed login is audited, because bad credentials leave no entry.
- Role and address checks after the token check, and the filtered and paged listings: single tests and queries.
- Calendar columns of the history table: functions of the creation time, which is kept.
