# StockFlow backend: verified models

Dafny models of the concurrent and the subtle parts of StockFlow's backend, with proofs of what
they keep over every run and every input:

- **Customer credit ledger** (`CreditLedger`, `CreditLedgerRepository`): an insert-only table, an
  advisory lock on a hash of the balance key, a balance-guarded insert, unlocked issuance.
- **Idempotency layer** (`Idempotency`, `IdempotencyCleanup`, `IdempotencyStore`,
  `IdempotencyAlone`, `StableStringify`, `JsonText`, `JsonReader`): the reservation insert as a
  mutex on a unique index, replay, expiry, cleanup, and the canonical printer whose text is hashed
  to recognise a repeated request, with an independent reader of what it prints.
- **Billing** (`Subscription`, `SubscriptionService`, `InvoicePayments`, `InvoiceService`,
  `RefundWebhooks`): subscription commands and recurring invoicing under `rowVersion`
  compare-and-swap, invoice payment and voiding, and redelivered provider webhooks.
- **AI assistant** (`ContextBudget`, `ToolLoop`): turn grouping, newest-first selection, the three
  context checkpoints and the tool loop.
- **Infrastructure** (`RedisLock`, `EventBus`): the token-checked lock with expiry, and the ordered,
  idempotent in-process event bus.

Each protocol is a total step function `Next` over a state of committed rows, open transactions
with what they have staged or read, locks and a clock; an event that is not enabled changes nothing,
so `Run` is defined for every list of events and a statement about `Run(events)` covers every
interleaving, crash and retry. The classes state the same code as methods and tie it to those
steps. `Wrappers` holds `Option` and a map lookup.

## Semantics assumed

- READ COMMITTED: a statement sees what is committed when it starts and its own transaction's rows.
- A unique index blocks a conflicting insert until the other transaction ends, and a delete waits
  for whoever is at the same row. An
  advisory lock is held to the end of its transaction and is re-entrant. An `UPDATE ... WHERE
  rowVersion = n` waits for the row lock and then compares with what is committed.
- Redis `SET NX EX` and the release script are atomic. UUIDs are fresh and SHA-256 does not collide.
- Money is an integer number of 1/10000; `Math.ceil((n / 4) * 1.2)` is computed exactly.
- Text in `JsonText`, `StableStringify` and `RefundWebhooks` is a sequence of UTF-16 code units.

## What the proofs found

- The ledger is safe exactly when callers never issue a negative amount; comments in the repository
  say so, but only manual adjustments enforce it (`SafeIffIssuesNonNegative`).
- A spend stops only at a zero sum, a legacy refund at any sum that is not positive, so a refund
  undoes its spend exactly when the credit payments do not sum below zero (`RefundUndoesSpendIff`).
  The sale DTO accepts no negative payment (`backend/src/modules/sales/dto/create-sale.dto.ts:67-70`),
  so the other case needs a caller that is not that endpoint.
- The documentation says a request in flight is answered with 409. The index makes the second
  request wait instead, and 409 cannot happen unless some caller completes with status 0
  (`NeverPending`, `PendingIffZeroStatus`).
- Removing an expired row is invisible to every present and future request and lookup, in every
  interleaving, exactly when no open request for its key read its clock before the row expired
  (`PurgeInvisibleIff`; `CleanupVisibleToOldRequest` is a run where one did).
- The request hash cannot tell a `Date` from `{}` or from any other date, nor `undefined` or `NaN`
  from `null` (`ImpureTwins`); `-0`, which prints as `0`, is one value with it in the model. On
  everything JSON can say it is exact.
- Committed status changes leave `VALID_TRANSITIONS` exactly when they cancel a subscription that is
  not ACTIVE, and a trial can be cancelled (`EdgeInTableIff`, `TrialCancelled`).
- A subscription that is cancelled and resumed is ACTIVE, whatever it was before: a trial, a free or
  a suspended one does not come back as it was (`CancelThenResume`).
- One live invoice per due date holds for recurring invoices, and for all invoices in all runs
  exactly when nobody bills by hand (`OneLiveIffNoManualBilling`). A single invoice made by hand is
  harmless, then and later, exactly when no other is live for its due date and no renewal for that
  date is past its guard (`ByHandHarmlessIff`).
- An invoice whose total is not positive is never paid in any run (`NonPositiveNeverPaid`), and some
  amount pays every other pending one (`PayableIffPositive`).
- No `invoice.paid` delivery whose object has an id ever pays an invoice: it looks for its provider
  id, which reaches an invoice only in the write that makes it PAID. A delivery whose object has no
  id looks without a filter and can pay any pending invoice it happens to find; so deliveries never
  pay exactly if invoices are created without a provider id and all deliveries are named
  (`DeliveriesNeverPayIff`). The refund handler guards against the missing id; this one does not.
- A delivery pays exactly the positive totals of whole cents of an invoice that its lookup matches,
  under a key that is unmarked or whose mark cannot be read (`DeliveryPaysIff`).
- A refund that arrives before its invoice is known is marked as processed and never recorded
  (`EarlyRefundIsLost`, `DeliveredIsRecordedIff`).
- When the minimum fits and nobody else writes to the conversation, Checkpoint 1 can refuse the first
  call only with more kept messages that carry tool calls than the user message, counted with an
  empty list, has tokens, and at most nine of them; so in no deployment for a user message of 25
  characters or more (`RefusalNeedsMore`). In every deployment whose history budget has room for that
  many short exchanges it does refuse some history then (`FirstCallRefusedIff`).
- A closing call can be sent with tool calls unanswered exactly when Checkpoint 2's reservations do
  not cover the assistant's text and all results but the last; for successful tools, when the text
  and five tokens for each call but the last exceed 1200 tokens (`ClosingAlwaysPairedIff`,
  `CoveredBySuccess`). In one given deployment it also takes that the results before the last can use
  up what Checkpoint 2 left, and that the tools' definitions make room for the notice
  (`UnansweredIff`).

## Model

| member | source | states |
|---|---|---|
| CreditLedger.NeverNegative | backend/src/modules/crm/repositories/customer-credit-ledger.repository.ts:142-203 | Under every interleaving and every lock hash no committed balance is negative, nor would be if any open transaction committed now. |
| CreditLedger.RefinesSerialLedger | backend/src/modules/crm/repositories/customer-credit-ledger.repository.ts:85-118 | The committed rows in commit order are accepted one by one by a plain counter that takes only covered deductions, and end at the same balances. |
| CreditLedger.SafeIffIssuesNonNegative | backend/src/modules/crm/repositories/customer-credit-ledger.repository.ts:254-276 | With the lock taken first, balances stay non-negative in all runs if and only if no caller issues a negative amount. |
| CreditLedger.SnapshotBeforeLockOverdraws | backend/src/modules/crm/repositories/customer-credit-ledger.repository.ts:120-141 | A single-statement variant, whose snapshot precedes the lock wait, commits a negative balance for any hash. |
| CreditLedger.CommitKeepsOthers | backend/src/modules/crm/repositories/customer-credit-ledger.repository.ts:120-141 | One transaction's commit leaves every other open one acceptable after the longer committed history. |
| CreditLedger.Weave | backend/src/modules/crm/repositories/customer-credit-ledger.repository.ts:142-203 | Two row lists accepted after the same history are accepted one after the other when they deduct from different keys. |
| CreditLedger.EndFreesLocks | backend/src/modules/crm/repositories/customer-credit-ledger.repository.ts:85-118 | A commit or rollback frees the transaction's locks for everybody, and only a commit leaves its rows. |
| CreditLedgerRepository.Repository.InsertWithBalanceGuard | backend/src/modules/crm/repositories/customer-credit-ledger.repository.ts:142-203 | Is the protocol's lock, snapshot and guarded insert; a row comes back exactly when the balance, own staged rows included, covers the amount. |
| CreditLedgerRepository.Repository.CreateIssued | backend/src/modules/crm/repositories/customer-credit-ledger.repository.ts:254-276 | Stages one ISSUED row without a lock, as the protocol's issue step. |
| CreditLedgerRepository.Repository.CreateManualAdjustment | backend/src/modules/crm/repositories/customer-credit-ledger.repository.ts:294-334 | A write-off is refused exactly when not covered, a top-up never; a non-negative balance stays so. |
| CreditLedgerRepository.Repository.Adjust | backend/src/modules/crm/services/customer-credit-ledger.service.ts:249-320 | Moves the balance by exactly the signed amount or is refused, with the exact condition of each refusal. |
| CreditLedgerRepository.Repository.IssueRefundCredit | backend/src/modules/crm/services/customer-credit-ledger.service.ts:119-159 | One row per eligible allocation, in order; together they credit the sum the aggregated refund would. |
| CreditLedgerRepository.GetBalances | backend/src/modules/crm/repositories/customer-credit-ledger.repository.ts:338-385 | From any GROUP BY of the rows, reports exactly the active wanted currencies, each with the balance the spend guard computes and its three totals. |
| CreditLedgerRepository.RefundUndoesSpendIff | backend/src/modules/crm/services/customer-credit-ledger.service.ts:70-240 | Spend then full legacy refund restores every balance if and only if the credit payments do not sum below zero. |
| CreditLedgerRepository.CreditIsTwoMethods | backend/src/modules/crm/services/customer-credit-ledger.service.ts:70-95 | The credit amount of a sale is what was paid by store credit plus what was paid by gift card, whatever else was paid. |
| CreditLedgerRepository.SpendTakes | backend/src/modules/crm/services/customer-credit-ledger.service.ts:70-112 | A sale takes exactly that from the customer's balance in its currency and nothing from any other; refused if and only if the balance, or the customer, is not there. |
| CreditLedgerRepository.LegacyRefundGives | backend/src/modules/crm/services/customer-credit-ledger.service.ts:182-240 | A legacy refund gives exactly that back where it is positive, and nothing to any other balance. |
| Idempotency.ExactlyOnce | backend/src/infrastructure/idempotency/idempotency.service.ts:107-204 | Until an execution's row expires, every later answer on its key is a replay of it (same payload) or a mismatch, over any interleaving, crash, expiry and cleanup. |
| Idempotency.ReplayHasOrigin | backend/src/infrastructure/idempotency/idempotency.service.ts:138-177 | Every replayed answer repeats the status and body of an earlier committed execution of the same key and payload. |
| Idempotency.NeverPending | backend/src/infrastructure/idempotency/idempotency.helper.ts:90-117 | When no caller completes with status 0, no committed row is pending and nobody is told that a key is in flight. |
| Idempotency.PendingIffZeroStatus | backend/src/infrastructure/idempotency/idempotency.service.ts:168-170 | That holds of all runs if and only if completing with status 0 is ruled out. |
| Idempotency.CleanupVisibleToOldRequest | backend/src/infrastructure/idempotency/idempotency.service.ts:286-291 | Two runs that differ in one cleanup: an old request replays in one and executes again in the other. |
| IdempotencyCleanup.PurgeInvisibleIff | backend/src/infrastructure/idempotency/idempotency.service.ts:286-291 | From every reachable state with and without an expired, untouched row, the callers of requests and of lookups can be told the same, in the same order, in all continuations if and only if no open request for the key read its clock while the row was live; a lookup between its read and its clock does not matter. |
| IdempotencyStore.Service.Reserve | backend/src/infrastructure/idempotency/idempotency.service.ts:107-177 | For a live row the same payload is answered with its response, or as in flight while it is pending, and another payload is refused; a key without a live row, absent or expired, is reserved; calls itself again at most once. |
| IdempotencyStore.Service.Complete | backend/src/infrastructure/idempotency/idempotency.service.ts:186-204 | Fills a pending row and never overwrites a finished one. |
| IdempotencyStore.Service.RunWithIdempotency | backend/src/infrastructure/idempotency/idempotency.helper.ts:90-117 | On a key without a live row the work's response is told and stored for 24 hours, or nothing where the work failed; on a live row nothing is written and the row answers. |
| IdempotencyStore.RetryLaw | backend/src/infrastructure/idempotency/idempotency.service.ts:147-177 | For 24 hours after a completed run, whatever was sent in between, the same payload gets its status and body again, another payload is turned away, the fast path shows it, and none of them changes a row. |
| IdempotencyStore.ReplayedIff | backend/src/infrastructure/idempotency/idempotency.service.ts:153-159 | A retry with other work gets the first response if and only if it comes within these 24 hours. |
| IdempotencyAlone.RequestAlone | backend/src/infrastructure/idempotency/idempotency.service.ts:236-274 | The protocol's statements of one undisturbed request answer and leave the rows exactly as the service's method does, and touch nobody else. |
| IdempotencyAlone.RetryAlone | backend/src/infrastructure/idempotency/idempotency.service.ts:138-177 | After any run of the protocol, the method replays a live execution to the same payload and refuses any other. |
| IdempotencyStore.Service.Replayed | backend/src/infrastructure/idempotency/idempotency.service.ts:215-229 | The fast path answers with live finished rows only, whatever their payload. |
| IdempotencyStore.Service.CleanupExpired | backend/src/infrastructure/idempotency/idempotency.service.ts:286-291 | Deletes exactly the expired rows and returns their number. |
| IdempotencyStore.Service.DeleteExpiredBatch | backend/src/modules/maintenance/maintenance-cron.service.ts:105-117 | Deletes expired rows only, as many as there are up to the limit. |
| IdempotencyStore.Service.DrainExpired | backend/src/modules/maintenance/maintenance-cron.service.ts:62-73 | Terminates, and for any positive batch size has deleted exactly the expired rows and counted them. |
| IdempotencyStore.CleanupsInvisible | backend/src/infrastructure/idempotency/idempotency.service.ts:147-159 | For requests served one after another on a monotone clock, cleanups anywhere between them, whole or in batches of any expired rows, change no reply. |
| IdempotencyStore.CleanupVisibleIff | backend/src/infrastructure/idempotency/idempotency.service.ts:153-159 | For one reservation served at once, whose clock reading may be older, a cleanup changes the answer if and only if the row was live for the one and expired for the other. |
| StableStringify.SameTextIffSamePayload | backend/src/infrastructure/idempotency/idempotency.service.ts:28-41 | Two values print alike if and only if they mean the same JSON with objects as maps: canonical and injective. |
| StableStringify.CanonicalOnPure | backend/src/infrastructure/idempotency/idempotency.service.ts:20-41 | On pure JSON trees two values print alike if and only if they are equal up to key order at every level. |
| StableStringify.MeaningIffReordered | backend/src/infrastructure/idempotency/idempotency.service.ts:35-40 | On pure trees, same meaning is the same as equal up to key order, by an independent definition. |
| StableStringify.SortAscending | backend/src/infrastructure/idempotency/idempotency.service.ts:36 | The key sort returns the keys in strictly ascending code-unit order. |
| StableStringify.LessIff | backend/src/infrastructure/idempotency/idempotency.service.ts:36 | One key comes before another if and only if at the first difference it has the smaller code unit or ends. |
| StableStringify.ImpureTwins | backend/src/infrastructure/idempotency/idempotency.service.ts:29-31 | Every date prints like the empty object, and undefined and non-finite numbers like null. |
| JsonText.QuoteDecodes | backend/src/infrastructure/idempotency/idempotency.service.ts:38 | A quoted string followed by anything reads back one way, escapes and lone surrogates included. |
| JsonText.NumTextInjective | backend/src/infrastructure/idempotency/idempotency.service.ts:30 | Different numbers print differently, across all four layouts of Number-to-String. |
| JsonText.NumDecodes | backend/src/infrastructure/idempotency/idempotency.service.ts:30 | A number followed by something no number contains reads back one way. |
| JsonText.EscapedIff | backend/src/infrastructure/idempotency/idempotency.service.ts:38 | Exactly quotes, backslashes, control characters and lone surrogates are escaped, seven of them by a letter, the others in lower-case hexadecimal. |
| JsonText.ExponentWrittenIff | backend/src/infrastructure/idempotency/idempotency.service.ts:30 | An exponent is written exactly below 10^-6 and from 10^21 on. |
| JsonReader.PrintParses | backend/src/infrastructure/idempotency/idempotency.service.ts:28-41 | The canonical text of any value is JSON, and an independent reader of the RFC 8259 grammar gets from it exactly what the value means. |
| JsonReader.NumReads | backend/src/infrastructure/idempotency/idempotency.service.ts:30 | Every number reads back to the last digit, in all four layouts. |
| JsonReader.QuoteReads | backend/src/infrastructure/idempotency/idempotency.service.ts:38 | Every string reads back to the last code unit. |
| JsonReader.ReprintStable | backend/src/infrastructure/idempotency/idempotency.service.ts:28-41 | A value with the payload that the text says prints to that text again. |
| Subscription.RefinesSerialSubscription | backend/src/modules/billing/repositories/company-subscription.repository.ts:97-162 | The committed versioned writes replayed serially pass every guard and end at the committed row; the version counts them, so no update is lost. |
| Subscription.CommitEffect | backend/src/modules/billing/services/company-subscription.service.ts:161-424 | In every run a commit changes exactly its command's own fields: a cancellation ends CANCELLED, a resumption ACTIVE, a downgrade FREE on the free plan, a plan change leaves the status; one version more, audited from the status replaced to the one left. |
| Subscription.AuditsAreTheHistory | backend/src/modules/billing/services/company-subscription.service.ts:217-424 | Audit rows, written from earlier reads, are the committed status history: a chain from TRIAL to the current status. |
| Subscription.EdgesAllowed | backend/src/modules/billing/services/company-subscription.service.ts:24-33 | Every committed change is an edge of the table or a cancellation of a subscription neither cancelled nor expired. |
| Subscription.EdgeInTableIff | backend/src/modules/billing/services/company-subscription.service.ts:24-33 | In every run a committed change is in the table if and only if it does not cancel a subscription that is not ACTIVE. |
| Subscription.TrialCancelled | backend/src/modules/billing/services/company-subscription.service.ts:217-245 | A run that leaves the table: TRIAL to CANCELLED. |
| Subscription.CommandInTableIff | backend/src/modules/billing/services/company-subscription.service.ts:217-245 | An accepted command's target is in the table unless it cancels from a status other than ACTIVE, and only then. |
| Subscription.SuspendedOnlyAfterPastDue | backend/src/modules/billing/services/company-subscription.service.ts:24-33 | In every run a suspended subscription was PAST_DUE just before and ACTIVE before that. |
| Subscription.HandledMeansExpected | backend/src/modules/billing/webhooks/webhook-engine.service.ts:221-261 | A webhook transition is reported as handled only if an expected status was committed at some time while it ran. |
| Subscription.OneInvoicePerAdvance | backend/src/modules/billing/services/invoice.service.ts:192-309 | Committed recurring invoices and committed period advances are one to one, invoice k being for the period end that advance k replaced. |
| Subscription.OneLivePerPeriod | backend/src/modules/billing/services/invoice.service.ts:208-225 | In every run at most one recurring invoice that is not void exists per due date. |
| Subscription.OneLiveIffNoManualBilling | backend/src/modules/billing/services/invoice.service.ts:83-170 | Counting invoices made by hand, whose due date is the period end read or 30 days from now, that holds of all runs if and only if there are none. |
| Subscription.ByHandHarmlessIff | backend/src/modules/billing/services/invoice.service.ts:83-170 | Committing one invoice made by hand keeps one live invoice per due date in all continuations without another if and only if none is live for its due date and no renewal for that date is past its guard. |
| Subscription.TidyWithoutBilling | backend/src/modules/billing/services/invoice.service.ts:208-225 | In a setup where nobody bills by hand every reachable state meets the hypothesis of `ByHandHarmlessIff`: one live invoice per due date, and no renewal past its guard for a date that has one. |
| Subscription.KeptFromTidyIff | backend/src/modules/billing/services/invoice.service.ts:208-225 | Without further billing by hand, one live invoice per due date is kept in all continuations from exactly the states that have it and no renewal about to break it. |
| SubscriptionService.Company.UpdateByCompany | backend/src/modules/billing/repositories/company-subscription.repository.ts:97-162 | All of the data and one version more, or nothing; exact conditions of NotFound and Conflict; the plain update keeps the version. |
| SubscriptionService.SplitIsWhole | backend/src/modules/billing/repositories/company-subscription.repository.ts:106-147 | Writing the scalar fields and then the relations equals writing the data as given. |
| SubscriptionService.Company.ChangePlan | backend/src/modules/billing/services/company-subscription.service.ts:161-215 | Changes plan and version only, for a known plan. |
| SubscriptionService.Company.Cancel | backend/src/modules/billing/services/company-subscription.service.ts:217-270 | Accepted unless cancelled or expired; ends CANCELLED with all else as it was, one version on, and audited. |
| SubscriptionService.Company.Resume | backend/src/modules/billing/services/company-subscription.service.ts:272-316 | Accepted only for cancelled; ends ACTIVE with all else as it was, one version on, and audited. |
| SubscriptionService.Company.TransitionStatus | backend/src/modules/billing/services/company-subscription.service.ts:318-370 | Accepted exactly along the table; ends in the status asked for with all else as it was, one version on, and audited. |
| SubscriptionService.Company.DowngradeToFree | backend/src/modules/billing/services/company-subscription.service.ts:372-424 | Acts on TRIAL only and ends FREE on the free plan; otherwise a no-op without audit or error. |
| SubscriptionService.Company.GenerateRecurringInvoice | backend/src/modules/billing/services/invoice.service.ts:192-309 | Skipped exactly when a live invoice covers the period; otherwise an invoice due at the period's end and a period of 30 more days from now are both there. |
| SubscriptionService.Company.GenerateInvoice | backend/src/modules/billing/services/invoice.service.ts:83-170 | One more invoice for the due date, whatever is there already; the row stays. |
| SubscriptionService.CommandAlone | backend/src/modules/billing/services/company-subscription.service.ts:217-424 | The protocol's steps of one undisturbed command do exactly what the method does. |
| SubscriptionService.CancelThenResume | backend/src/modules/billing/services/company-subscription.service.ts:217-316 | Cancelled and then resumed, a subscription is ACTIVE with all else as it was: it comes back as it was if and only if it was ACTIVE. |
| SubscriptionService.ChangeOccursIff | backend/src/modules/billing/services/company-subscription.service.ts:24-33 | A change from one status to another is ever committed, in some run of some transactions, if and only if it is one of those listed by target. |
| SubscriptionService.ConvergesIff | backend/src/modules/billing/webhooks/webhook-engine.service.ts:221-245 | A webhook's transition that is refused is handled if and only if the subscription is in a state it expects; it writes nothing either way. |
| SubscriptionService.TouchSurvives | backend/src/modules/billing/repositories/company-subscription.repository.ts:97-162 | A provider reference written between a command's read and its swap is kept, and does not make the command fail. |
| SubscriptionService.RenewAlone | backend/src/modules/billing/services/invoice.service.ts:192-309 | The protocol's steps of one undisturbed invoicing run do exactly what the method does. |
| SubscriptionService.BilledAgainIff | backend/src/modules/billing/services/invoice.service.ts:208-225 | A billed period is billed again if and only if its invoice was voided. |
| InvoicePayments.PaidIffPaidOnceInFull | backend/src/modules/billing/services/invoice.service.ts:311-405 | In every run an invoice is PAID if and only if it has exactly one succeeded payment, of its whole total; in any other status it has none. |
| InvoicePayments.SettledIsFinal | backend/src/modules/billing/services/invoice.service.ts:407-442 | PAID and CANCELLED are final, and totals never change, however a run goes on. |
| InvoicePayments.CommitSettles | backend/src/modules/billing/services/invoice.service.ts:350-442 | In every run a committed voiding leaves its invoice CANCELLED with total and provider id as they were, a committed payment leaves it PAID with one payment of its total, and no other invoice changes. |
| InvoicePayments.VoidedNeverPaid | backend/src/modules/billing/services/invoice.service.ts:407-442 | Once a voiding has committed, no continuation makes that invoice PAID or adds a payment for it. |
| InvoicePayments.PaidNeverVoided | backend/src/modules/billing/services/invoice.service.ts:311-405 | Once a payment has committed, no continuation voids that invoice or pays it again. |
| InvoicePayments.HandledMeansPaid | backend/src/modules/billing/webhooks/webhook-engine.service.ts:328-370 | A delivery that found its invoice is answered as handled only when that invoice is paid, once and in full, now and later. |
| InvoicePayments.DuplicateMeansPaid | backend/src/modules/billing/webhooks/webhook-engine.service.ts:156-172 | A delivery answered by its mark alone repeats an earlier one under the same key that found no invoice, or one that is paid from then on. |
| InvoicePayments.VoidedNeverHandled | backend/src/modules/billing/webhooks/webhook-engine.service.ts:351-367 | No delivery is answered as handled for a voided invoice. |
| InvoicePayments.JobAlone | backend/src/modules/billing/services/invoice.service.ts:311-442 | One undisturbed payment leaves its invoice PAID with its payment, one undisturbed voiding leaves it CANCELLED, all else as it was; or nothing changes when the checks refuse. |
| InvoicePayments.PayableIffPositive | backend/src/modules/billing/services/invoice.service.ts:338-347 | Some amount pays a pending invoice if and only if its total is positive. |
| InvoicePayments.NonPositiveNeverPaid | backend/src/modules/billing/services/invoice.service.ts:338-347 | In no run is an invoice PAID whose total is not positive. |
| InvoicePayments.DeliveryPaysIff | backend/src/modules/billing/webhooks/webhook-engine.service.ts:328-350 | A whole undisturbed delivery under this key, with an id, a null one or none, can pay a pending invoice if and only if the key is unmarked or its mark unreadable, the lookup matches the invoice (a missing id matches all), and the total is positive and of whole cents. |
| InvoicePayments.DeliveriesNeverPayIff | backend/src/modules/billing/webhooks/webhook-engine.service.ts:332-341 | No run has a delivery that passes the checks of a payment, if and only if runs are confined to invoices created without a provider id and deliveries that name one. |
| InvoicePayments.DeliveriesChangeNothing | backend/src/modules/billing/services/invoice.service.ts:350-361 | In runs where invoices are created without a provider id and every delivery names one, no step of any delivery changes an invoice or adds a payment. |
| InvoicePayments.RetryConverges | backend/src/modules/billing/webhooks/webhook-engine.service.ts:351-367 | A redelivery, named or not, that finds a paid invoice after a crash between payment and mark is handled and changes no invoice or payment. |
| InvoicePayments.CrashedPaymentConverges | backend/src/modules/billing/webhooks/webhook-engine.service.ts:190-208 | A delivery that crashes between its payment and its mark and comes again: one payment, and handled. |
| InvoicePayments.ForgottenConverges | backend/src/modules/billing/webhooks/webhook-engine.service.ts:156-172 | A mark that is lost leads to no second payment: the delivery is handled again. |
| InvoicePayments.NotFoundIff | backend/src/modules/billing/webhooks/webhook-engine.service.ts:337-341 | A delivery is handled without an invoice if and only if none matches, and then writes nothing but its mark. |
| InvoiceService.Store.Update | backend/src/modules/billing/repositories/invoice.repository.ts:94-128 | The compare-and-swap of an invoice: whole write and version, or nothing, with exact error conditions. |
| InvoiceService.Store.MarkPaid | backend/src/modules/billing/services/invoice.service.ts:311-405 | Done exactly for a pending invoice and the exact positive total: then PAID under the given provider id together with its payment, otherwise unchanged; keeps the books balanced. |
| InvoiceService.Store.VoidInvoice | backend/src/modules/billing/services/invoice.service.ts:407-442 | Done exactly for pending invoices: then CANCELLED with total and provider id as they were, otherwise unchanged; keeps the books balanced. |
| InvoiceService.Store.HandleInvoicePaid | backend/src/modules/billing/webhooks/webhook-engine.service.ts:328-370 | With an id, a null one or none: finds an invoice exactly when one matches (a missing id matches all), goes well exactly when none does or the one found ends up paid, and pays it exactly when it is pending and the amount is its positive total. |
| InvoiceService.Store.HandleWebhook | backend/src/modules/billing/webhooks/webhook-engine.service.ts:156-208 | A key found marked does nothing; failed reads and writes of the mark are swallowed; a key is marked only when its delivery went well; a failed delivery leaves no trace. |
| RefundWebhooks.RefundKeyInjective | backend/src/modules/billing/webhooks/webhook-engine.service.ts:529 | The composed key identifies the charge and the amount, whatever characters the charge id contains. |
| RefundWebhooks.AtMostOnce | backend/src/modules/billing/webhooks/webhook-engine.service.ts:530-559 | In every run at most one row exists per charge and cumulative amount. |
| RefundWebhooks.CompletedIsRecorded | backend/src/modules/billing/webhooks/webhook-engine.service.ts:478-560 | A completed delivery that found its invoice has exactly one row. |
| RefundWebhooks.SetSemantics | backend/src/modules/billing/webhooks/webhook-engine.service.ts:478-560 | Once every event has completed with its invoice, the table is the set of refunds the events speak of, whatever their order, number and interleaving. |
| RefundWebhooks.DeliveredIsRecordedIff | backend/src/modules/billing/webhooks/webhook-engine.service.ts:507-521 | An undisturbed delivery leaves its refund recorded if and only if it was already, or the invoice is known and the event not yet marked. |
| RefundWebhooks.EarlyRefundIsLost | backend/src/modules/billing/webhooks/webhook-engine.service.ts:516-521 | A run in which the event comes, its invoice becomes known, the event comes again, and no row is written. |
| RefundWebhooks.LostInvoiceLosesRefund | backend/src/modules/billing/webhooks/webhook-engine.service.ts:507-521 | An event that comes while its invoice is unknown adds nothing then or when it comes again with the invoice known. |
| RefundWebhooks.CrashedInsertConverges | backend/src/modules/billing/webhooks/webhook-engine.service.ts:529-559 | A delivery that crashes between its insert and its mark and comes again leaves exactly one row. |
| RefundWebhooks.ForgottenConverges | backend/src/modules/billing/webhooks/webhook-engine.service.ts:156-172 | With its mark lost the event completes again and the table stays. |
| ContextBudget.GroupIntoTurns | backend/src/modules/ai/ai.service.ts:97-115 | A partition of the messages into non-empty turns with user messages at heads only. |
| ContextBudget.GroupingUnique | backend/src/modules/ai/ai.service.ts:92-115 | There is only one such partition. |
| ContextBudget.SelectTurns | backend/src/modules/ai/ai.service.ts:121-142 | The longest suffix of turns within the budget. |
| ContextBudget.KeepHistory | backend/src/modules/ai/ai.service.ts:549-568 | The kept history is a suffix cut at a turn, as long as fits, and costs at most the budget. |
| ContextBudget.Prepare | backend/src/modules/ai/ai.service.ts:530-600 | From stored history, unanswerable calls stripped: the messages are the system prompt, the kept history and the question last, added only where the history does not end with it; the first request to the token, and if the minimum fits at most k over the limit, less a user message reserved twice, k counting the kept messages with tool calls. |
| ContextBudget.SafeHistoryStrips | backend/src/modules/ai/ai.service.ts:530-545 | Stripping takes away the calls of exactly the assistant messages that no tool message follows, and nothing else; a second stripping changes nothing. |
| ContextBudget.FirstRequestExact | backend/src/modules/ai/ai.service.ts:549-600 | The first request is the minimum plus the kept turns plus the drift of the two estimates, less a user message reserved twice. |
| ContextBudget.FirstCallRefusedIff | backend/src/modules/ai/ai.service.ts:605-614 | In every deployment whose history budget has room for k short exchanges, for an undisturbed request, Checkpoint 1 can refuse the first call with k kept messages that carry calls if and only if k exceeds the user message's tokens and is at most nine. |
| ContextBudget.RefusalNeedsMore | backend/src/modules/ai/ai.service.ts:605-614 | In every deployment, with room or not, an undisturbed request whose minimum fits is refused its first call only for such a k, hence never from 25 characters on. |
| ContextBudget.DriftIsReached | backend/src/modules/ai/ai.service.ts:605-614 | In every deployment with room for k short exchanges, k up to nine, some history of two turns with k answered calls and the user message last fills the budget to the token, is kept whole, and puts the first request k over the limit, less the user message. |
| ContextBudget.NextRequestExact | backend/src/modules/ai/ai.service.ts:709-725 | After any number of results the request is the Checkpoint 2 estimate plus the assistant text plus the results less all reservations. |
| ContextBudget.NextRequestBound | backend/src/modules/ai/ai.service.ts:839-867 | After Checkpoint 2 and successful, truncated results it is at most the limit plus the assistant text plus five tokens per call. |
| ToolLoop.RunTools | backend/src/modules/ai/ai.service.ts:748-978 | After the assistant message, one tool message per call id in order, over unknown, denied, invalid, failed and successful calls, with each early end's reason. |
| ToolLoop.Round | backend/src/modules/ai/ai.service.ts:602-979 | One iteration sends one call exactly when it fits, and either extends the transcript by a complete exchange or ends for the stated reason. |
| ToolLoop.Chat | backend/src/modules/ai/ai.service.ts:587-979 | Call i sends the first messages and i complete exchanges; only the last can be the closing call; the request ends for the reason it gives. |
| ToolLoop.ChatOnHistory | backend/src/modules/ai/ai.service.ts:530-979 | From stored history: the first call is the system prompt, the kept history and the question, and every later call starts with it; no call when the minimum does not fit, and a first call whenever it does and the kept messages with tool calls are no more than the tokens of a user message reserved twice. |
| ToolLoop.LaterCallShows | backend/src/modules/ai/ai.service.ts:728-878 | Every later normal call shows each earlier answer's text and calls and, right after it, each call's result under its id, whole or, for a success of over 4000 characters, cut there and marked. |
| ToolLoop.StopsAfterIff | backend/src/modules/ai/ai.service.ts:748-900 | Where the context first fills after a call, the round ends there if and only if that call's tool ran. |
| ToolLoop.AtMostSixCalls | backend/src/modules/ai/ai.service.ts:602-624 | A request makes at most six provider calls, each within the context; a sixth offers no tools. |
| ToolLoop.TranscriptIsPaired | backend/src/modules/ai/ai.service.ts:748-888 | If the prepared messages are paired, every normal call's messages are: each assistant message with calls is followed by exactly its answers, in order, and no further tool message. |
| ToolLoop.ClosingPairedIff | backend/src/modules/ai/ai.service.ts:902-930 | The closing call's messages are paired if and only if Checkpoint 3 stopped the round after its last call. |
| ToolLoop.ClosingAlwaysPairedIff | backend/src/modules/ai/ai.service.ts:709-725 | For given calls, text and bound on the results, every closing call after Checkpoints 1 and 2 is paired if and only if the reservations cover the text and all results but the last. |
| ToolLoop.UnansweredIff | backend/src/modules/ai/ai.service.ts:898-930 | In one given deployment, for given messages, text, calls and bound on the results, some results leave the first answer's calls unanswered in the closing call if and only if there are several calls, Checkpoint 2 passes, the text and all results but the last can exceed what it leaves, and with the tools' definitions away the notice fits. |
| ToolLoop.CoveredBySuccess | backend/src/modules/ai/ai.service.ts:845-853 | For successful tools that means: the text and five tokens for each call but the last are at most 1200. |
| ToolLoop.UnansweredIsSent | backend/src/modules/ai/ai.service.ts:898-930 | Where they do not cover it, no log but the one with the unpaired closing call accounts for the request's end. |
| RedisLock.NoTwoWithinTtl | backend/src/infrastructure/cache/redis.service.ts:143-191 | Two real runs of one job are never both within the seconds they asked for, counted from when they acquired. |
| RedisLock.GrantLasts | backend/src/infrastructure/cache/redis.service.ts:160-161 | However a run goes on without its own release, the granted lock is there under its token if and only if fewer seconds than its time to live have passed. |
| RedisLock.OthersRefused | backend/src/infrastructure/cache/redis.service.ts:143-191 | Until then every other acquisition of the key changes nothing. |
| RedisLock.NextGrantedIff | backend/src/infrastructure/cache/redis.service.ts:143-191 | If nobody tried before, the next acquisition is granted if and only if the whole time to live has passed. |
| RedisLock.ReleaseFrees | backend/src/infrastructure/cache/redis.service.ts:118-124 | A run that releases within its time leaves the key free at once. |
| RedisLock.CrashKeepsLock | backend/src/infrastructure/cache/redis.service.ts:160-161 | A run that dies keeps its key locked to the end of its time. |
| RedisLock.LateReleaseKeepsSuccessor | backend/src/infrastructure/cache/redis.service.ts:118-124 | However late another run releases, a real run within its time keeps its lock. |
| RedisLock.InTimeMeansExclusive | backend/src/modules/billing/scheduler/billing-cron.service.ts:32-58 | If every run ends within its time, no two real runs of a job overlap at any moment. |
| RedisLock.OverlapAfterExpiry | backend/src/modules/billing/scheduler/billing-cron.service.ts:43-48 | For every time to live, one run that outlives it is enough for two to overlap. |
| RedisLock.RedisService.AcquireLock | backend/src/infrastructure/cache/redis.service.ts:143-191 | The exact condition of each of the five outcomes; a real token is stored until exactly the time to live from now; what an erring command that took effect leaves; a synthetic token is never the stored one. |
| RedisLock.RedisService.ReleaseLock | backend/src/infrastructure/cache/redis.service.ts:199-218 | Deletes exactly the caller's own live lock, and says so unless the command erred. |
| EventBus.EachHandlerOnce | backend/src/common/events/in-memory-event-bus.ts:65-94 | Whatever the subscribe calls, every handler subscribed runs, and runs once. |
| EventBus.RunsInOrder | backend/src/common/events/in-memory-event-bus.ts:49-58 | Of two handlers the one with the lower priority runs first, and with equal priorities the one subscribed first; each with the priority of its first call. |
| EventBus.AnySortRunsThis | backend/src/common/events/in-memory-event-bus.ts:49-58 | Any result of sorting by the comparator runs the handlers in the same order. |
| EventBus.ConfluentIffDistinctPriorities | backend/src/common/events/in-memory-event-bus.ts:43-94 | For handlers each subscribed at one priority, the order is independent of order and number of subscribe calls if and only if no two share a priority. |
| EventBus.InMemoryEventBus.Subscribe | backend/src/common/events/in-memory-event-bus.ts:65-94 | Appends a new instance with its priority, 100 if none is given, ignores a known one, and leaves other events alone. |
| EventBus.InMemoryEventBus.Publish | backend/src/common/events/in-memory-event-bus.ts:43-63 | Runs exactly a prefix of the order, all of it unless a handler fails, and then up to that handler. |

## Left out

- Soft deletion of ledger rows, the unique index on their references, and `toFixed(4)` rounding: nothing in the modelled files deletes ledger rows, and amounts are taken as already in units of 1/10000.
- Non-finite adjustment amounts and ledger pagination: input validation and listing.
- JsonReader.PrintParses: reads numbers as exact decimals; that the printed digits name the double they came from is part of ECMA-262's Number-to-String and not of this model.
- Callable, BigInt and symbol values, sparse arrays and `toJSON` in `stableStringify`, and `toJson` / `normalizeBody` of stored responses.
- The request without an idempotency key, which is the work in its own transaction.
- Subscription creation: the row starts in TRIAL with any period end; the unique index on the company is not part of this model.
- Subscription timestamps, `isActive`, `cancelAtPeriodEnd` and the cron queries that select rows by them: `transitionStatus` writes the status only, so progress of the overdue and expiry jobs does not follow.
- The paged candidate loops of the billing cron, its job-run records, and its table of times to live, which are parameters here.
- Events published inside the billing transactions, and invoice numbers and lines.
- The remaining webhook handlers around the converged transition (checkout, payment failed, subscription updated and deleted), signature verification, and the cache in front of the processed table: a mark can be stored, lost or forgotten at any time.
- Subscription.OneLivePerPeriod: speaks of recurring invoices; the general statement is `OneLiveIffNoManualBilling`.
- RefundWebhooks.CompletedIsRecorded: says nothing of deliveries that did not find their invoice; `DeliveredIsRecordedIff` gives the exact condition.
- ToolLoop.TranscriptIsPaired: takes the pairing of the prepared messages as given; stripping keeps calls that any later tool message follows, so stored history need not be paired.
- ContextBudget.FirstCallRefusedIff: is about a conversation one request at a time writes to, and a budget with room for k exchanges with some list of calls whose text is not a multiple of ten long; `Prepare` bounds all others.
- ToolLoop.UnansweredIff: is about the calls of the first answer; `ClosingAlwaysPairedIff` speaks of every round.
- Subscription.ByHandHarmlessIff: is about subscriptions with a period end; without one, due dates are instants and nothing is looked up.
- IdempotencyStore.CleanupsInvisible: requests one after another; `IdempotencyCleanup.PurgeInvisibleIff` covers interleaved ones.
- IdempotencyStore.CleanupVisibleIff: one reservation at once; `IdempotencyCleanup.PurgeInvisibleIff` covers its statements one by one.
- Several rows removed by one statement: in the interleaved model a cleanup is a list of purges.
- A message store that throws while a tool result is being saved (the request ends with no further call), and the assistant's own idempotency branch.
- RedisLock.InTimeMeansExclusive: covers runs that hold a real lock; synthetic acquisitions run with no exclusion by design.
- Handlers that subscribe or publish while an event is being published, and priorities that are not integers.
- Controllers, DTOs, mappers, guards and configuration.
