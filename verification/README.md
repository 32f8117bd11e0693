# Verification of the reminder outbox

A Dafny 4.11 model of the service that texts fee reminders to guardians, with proofs about it: the transactional outbox
and its send workers, the daily scheduler that fills it, the webhook and the reconciliation task that correct it, the
payment ledger that silences it, and five small machines beside it. `dafny verify dfyconfig.toml` checks everything.

| file | models |
|---|---|
| `Models.dfy`, `Calendar.dfy` | statuses, the clock unit, dates and day numbers |
| `Outbox.dfy` | one outbox row: every write the services make to it, as functions and as methods of a class |
| `Protocol.dfy` | the outbox as a transition system: any number of send workers with row locks and uncommitted batches, and every other writer |
| `ProtocolSafety.dfy` | the inductive invariant, step by step and over every run |
| `ProtocolTheorems.dfy`, `ProtocolRuns.dfy` | what follows for reachable states and for runs |
| `ReminderBudget.dfy`, `Unconfirmed.dfy` | how often one reminder may be texted, its replays included; unknown deliveries that nobody can ask about |
| `SendWorker.dfy`, `SendRefinement.dfy` | the send task as code, and the proof that each of its runs, finished or rolled back after any of its passes, is a run of the protocol |
| `ReminderDelivery.dfy` | from a scheduler run's offer to the provider |
| `ReconcileWorker.dfy`, `StatusWebhook.dfy`, `PaymentPoll.dfy` | the other writers as code |
| `Reminders.dfy`, `Dispatch.dfy`, `Scheduler.dfy` | candidates, the keyed insert, the daily run, and histories of many runs |
| `TableListing.dfy`, `PaymentRefinement.dfy`, `SchedulerRefinement.dfy` | the payment poll and the scheduler run as runs of the protocol |
| `MessageKeys.dfy` | the texts of all message keys and how to read them back |
| `InvoiceLedger.dfy` | invoices, payments, reconciliation by reference |
| `QuietHours.dfy`, `CircuitBreaker.dfy`, `RateLimiter.dfy`, `PolicyCache.dfy`, `BackupRetention.dfy` | the small machines |

## How the model reads the code

- **Time.** One integer UTC clock in microseconds stands for the program's mixture of naive and aware datetimes; the
  breaker and the rate limiter count whole seconds, as their stores do. A school's zone is a fixed offset. Money is in
  whole cents.
- **Transactions.** A send batch works on an uncommitted copy of the rows it has locked and commits once
  (`workers/sends.py:149`); nothing it writes is durable before that. Every other writer (retry, reconciliation,
  callback, payment, insert, purge) is one atomic step, and those that rewrite rows wait for rows a sender has locked.
- **Two calls that do not work as written** are modelled by their intent: `_render_body` is called with one argument too
  many (`workers/sends.py:98`), and `on_conflict_do_nothing` is called on the generic insert
  (`domain/dispatch_service.py:77-82`). A body that fails to render is a case of its own in `SendWorker`.
- **Bookkeeping.** The state also counts every row ever inserted, how often each was handed to the provider, and in how
  many aborted batches. No step reads these.

Where the code and its documentation disagree, the model follows the code:

- A crash between the provider's acceptance and the commit is not resolved by reconciliation
  (`design/duplicate-prevention.md:133`): the row is back in Pending and is sent again (`AbortOffersAgain`,
  `CrashTextsTwice`). Hence aborted batches are part of the bound in `SubmitsAreBounded`.
- A row left in Sending by a committed batch is taken up by nobody (`design/duplicate-prevention.md:132` says
  reconciliation does): `ShelvedStays`.
- A Sent row can become Pending again (`design/duplicate-prevention.md` says never), through a callback that reports
  failure and a retry: `DoneHoldsIff`, `ResendNeedsFailureReport`.
- `poll_pending` is documented to return rows without a schedule, and a backoff to delay a retry. The query tests
  `scheduled_at` only: a row without one is never sent (`UnscheduledIsNeverSent`), and a retried row is due at once
  exactly when its schedule has passed and budget is left (`RetryIsDueIff`), so it may be sent before its backoff has
  begun to pass (`BackoffDoesNotDelay`, `RetryMayBeSentAtOnce`).
- The transition table allows an unknown delivery back to Pending without counting a retry, which would break the bound
  (`UncountedRetryIff`); no worker does that, and the protocol does not.
- Reconciliation is called idempotent, but "not_found" counts a retry every time, and every other answer moves the
  row's timestamps, from which its 72 hours are counted (`RepeatedWordIff`).
- A cancelled invoice, terminal in the table, is moved by a payment (`CancelledIsLeftAloneIff`).
- The provider is to be queried before any retry from an unknown delivery (`design/duplicate-prevention.md:102`). An
  ambiguous answer leaves no provider id to ask with, so a row never accepted before is given up after 72 hours and may
  then be retried unconfirmed (`NeverAcceptedIsNeverConfirmed`, `ExpiredMayBeRetried`).
- A saved policy is not always what loads serve from then on; `SaveTakesEffectIff` says when it is.
- A reminder's key can be another message's key; `ReminderKeyIsTakenIff` says for which versions.
- The payment poll records payments without asking for their reference (`RecordingKeepsUniqueIff`,
  `RepollIsHarmlessIff`); idempotence belongs to `reconcile_payment` only.
- The breaker's `record_failure` re-stamps an open circuit and HALF_OPEN admits every caller; the formula proved is the
  one this code computes.
- The policy service's own quiet-hours test differs from the enforced one when start equals end (`QuietTestsAgree`).

## Model

| member | source | states |
|---|---|---|
| `Outbox.OutboundMessage.constructor` | `domain/dispatch_service.py:62-76` | a new row is Pending with no attempt counted, and scheduled |
| `Outbox.OutboundMessage.ClaimForSending` | `domain/outbox.py:104-120` | a claim succeeds on Pending rows only, moves them to Sending and changes nothing else; a failed one changes nothing |
| `Outbox.OutboundMessage.TransitionStatus` | `domain/outbox.py:122-172` | either the table refuses and the row is untouched, or the whole new row: timestamps, provider id, retry count and backoff |
| `Outbox.OutboundMessage.DeferIfQuietHours` | `domain/quiet_hours.py:140-194` | a row is deferred exactly when the moment is quiet, to a later instant that is not |
| `Outbox.OutboundMessage.ProcessDeliveryCallback` | `domain/reconciliation_service.py:117-136` | a callback's word overrides any status; an unknown word leaves the row alone |
| `Outbox.OutboundMessage.ReconcileUnknownDelivery` | `domain/reconciliation_service.py:140-167` | the provider's answer is written with its timestamps; "not_found" counts a retry; every answer refreshes the row |
| `Outbox.CallbackEndsAs` | `domain/reconciliation_service.py:117-136` | for every row and word: "delivered" in any case ends Delivered with its instant, "sent", "queued" and "accepted" end Sent with the first such instant kept, "failed", "undelivered" and "rejected" end Failed with theirs, and any other word leaves the row alone |
| `Outbox.AnswerEndsAs` | `domain/reconciliation_service.py:148-167` | the same words as an answer to a reconciliation, as they are spelled; "not_found" makes the row Pending and counts a retry, any other answer only refreshes it |
| `Outbox.RunEndsAs` | `workers/reconciliation.py:52-71` | over 72 hours after its last touch a row fails whatever is answered; before, it ends as the answer says, or stays as it is without an id or an answer |
| `Outbox.MayBecomeIff` | `domain/outbox.py:52-68` | the eight moves of the transition table, and no others |
| `Outbox.RetryEndsAs` | `domain/outbox.py:164-170` | a retry counts one and sets a backoff of one, five, and from then on fifteen minutes |
| `Outbox.CallbackFollows` | `domain/reconciliation_service.py:127-136` | a callback keeps a row's identity and schedule and never lowers the number of submits its state allows |
| `Outbox.ReconciliationFollows` | `workers/reconciliation.py:51-83` | the same for everything a reconciliation run may write, expiry included |
| `Outbox.SuppressionFollows` | `workers/reconciliation.py:156-158` | the same for suppression of a waiting row |
| `Outbox.RetryFollows` | `domain/outbox.py:164-170` | the same for a retry of a failed row |
| `Outbox.UncountedRetryIff` | `domain/outbox.py:62-66` | of all moves the table allows to a row at rest, exactly the one from unknown delivery to Pending loses a submit from the count |
| `Outbox.BackoffDoesNotDelay` | `domain/outbox.py:86-94` | a failed row retried when it is due may be polled at once although its backoff lies a minute ahead |
| `Outbox.RepeatedCallbackIff` | `domain/reconciliation_service.py:117-136` | a callback's word heard again, later or at once, leaves status and retries as they are; the row is unchanged exactly when the word means nothing or no time has passed |
| `Outbox.RepeatedWordIff` | `domain/reconciliation_service.py:140-167` | an answer heard again leaves status and retries as they are exactly when it is not "not_found"; the row is unchanged exactly when, besides, no time has passed, since every answer moves the timestamps |
| `ProtocolSafety.InitialInv` | `domain/outbox.py:45-102` | the empty outbox satisfies the invariant |
| `ProtocolSafety.RewritingKeepsInv` | `domain/reconciliation_service.py:117-167` | any atomic rewrite of unlocked rows that respects their allowance keeps the invariant |
| `ProtocolSafety.RewriteStepRewrites` | `workers/reconciliation.py:44-83` | retries, reconciliation runs, callbacks and suppressions are such rewrites |
| `ProtocolSafety.InsertKeepsInv` | `domain/dispatch_service.py:77-90` | a keyed insert keeps the invariant, reuse of a purged key included |
| `ProtocolSafety.PurgeKeepsInv` | `domain/retention.py:80-128` | a purge keeps the invariant and records that what it took had long ended |
| `ProtocolSafety.PollKeepsInv` | `domain/outbox.py:86-102` | a poll locks only unlocked due rows and keeps the invariant |
| `ProtocolSafety.ClaimedRowOk` | `workers/sends.py:60-95` | a claimed row is failed, put back until its quiet window ends, or bound for the provider outside quiet hours |
| `ProtocolSafety.SentWithinMax` | `domain/outbox.py:91-94` | a row about to be submitted has not used up its retries and aborts |
| `ProtocolSafety.WorkKeepsInv` | `workers/sends.py:51-145` | work inside a batch, submits included, keeps the invariant |
| `ProtocolSafety.CommitKeepsInv` | `workers/sends.py:149` | publishing a batch keeps the invariant for its rows and for everyone else's |
| `ProtocolSafety.AbortKeepsInv` | `workers/sends.py:151-153` | rolling a batch back keeps the invariant once its submits are counted as aborted |
| `ProtocolSafety.StepKeepsInv` | `workers/sends.py:32-155` | every step of every worker and writer keeps the invariant |
| `ProtocolSafety.RunKeepsInv` | `workers/sends.py:32-155` | the invariant holds in every state of every interleaved run |
| `ProtocolTheorems.SubmitsAreBounded` | `domain/outbox.py:91-94` | in every reachable state a row was handed to the provider at most max_retries times plus once per aborted batch that had; a waiting row at most once per retry counted, any other once more |
| `ProtocolTheorems.SubmitIsExclusive` | `domain/outbox.py:113-120` | a submit is made by the one worker that holds the row and moved it from Pending to Sending; no other batch holds or submits it meanwhile |
| `ProtocolTheorems.PollsAreDisjoint` | `domain/outbox.py:88-102` | a poll returns no row that another open batch holds |
| `ProtocolTheorems.AbortOffersAgain` | `workers/sends.py:147-153` | after an abort every row of the batch is due again and unchanged, although some were sent |
| `ProtocolTheorems.KeysStayApart` | `domain/dispatch_service.py:77-90` | no key is in the table twice; inserts of one key are over 30 days apart, over 90 if the first row ended Sent or Delivered |
| `ProtocolTheorems.SubmitOutsideQuietHours` | `workers/sends.py:77-95` | with the school on file, the clock the sender looked at before a submit was not in quiet hours |
| `ProtocolTheorems.DeferredOncePerWindow` | `workers/sends.py:83-94` | a deferred row is not claimed again before the quiet window it was deferred in has ended |
| `ProtocolTheorems.EndStateHolds` | `domain/outbox.py:52-68` | a Sending, Sent, Delivered or Suppressed row at rest changes through a callback or a purge of sent rows only |
| `ProtocolTheorems.DoneHoldsIff` | `domain/reconciliation_service.py:117-136` | one step undoes Sent or Delivered exactly when it is the first delivery of a callback reporting failure |
| `ProtocolTheorems.ResendNeedsFailureReport` | `domain/outbox.py:52-68` | over any run, a sent row is waiting or submitted again only if in between a callback that reports failure was delivered for the first time; redelivered ones do not count |
| `ProtocolTheorems.ShelvedStays` | `workers/sends.py:139-145` | a Suppressed row, or one left Sending by a committed batch, stays so in any run in which no callback first brings a word about it, and is submitted again only if one first reports failure |
| `ProtocolTheorems.PaymentSilencesInvoice` | `workers/reconciliation.py:149-159` | suppressing an invoice's waiting rows keeps them from being submitted in any run in which no callback first reports failure of them; `PaymentRefinement.PollSilencesInvoice` says which payments do so |
| `ProtocolTheorems.NothingGetsOlder` | `domain/outbox.py:183-194` | no step of anyone adds to the unknown deliveries last touched by a given past instant, uncommitted ones included |
| `ProtocolTheorems.PassedOver` | `domain/outbox.py:183-194` | a reconciliation query that leaves a row out is full and returned nothing newer |
| `ProtocolTheorems.StaleStep` | `workers/reconciliation.py:51-64` | while a stale row stays unknown, each run that passes it over clears a hundred rows no newer than it |
| `ProtocolTheorems.StaleLeaves` | `workers/reconciliation.py:51-83` | an unknown delivery untouched for over 72 hours leaves that status within ceil(r/100) runs, r being the unknown deliveries no newer than it, whatever else happens |
| `ProtocolRuns.SelectionExists` | `domain/outbox.py:88-100` | every limited query ordered by an instant has an answer |
| `ProtocolRuns.DueIff` | `domain/outbox.py:88-99` | a row is on offer exactly when it is in the table, unlocked, Pending, scheduled for now or before, and has counted fewer retries than it may, none included |
| `ProtocolRuns.DueRowMayBePolled` | `domain/outbox.py:86-102` | any free worker may poll any row on offer |
| `ProtocolRuns.NewRowIsDueIff` | `domain/outbox.py:88-94` | in every reachable state a row inserted under a free key is on offer at once exactly when its schedule has passed and its budget is positive |
| `ProtocolRuns.RetryIsDueIff` | `domain/outbox.py:86-94` | a retried row is due at once exactly when its schedule has passed and its budget is not used up; its backoff, which lies ahead, plays no part |
| `ProtocolRuns.RetryMayBePolledAtOnce` | `domain/outbox.py:86-102` | then any free worker may poll it before its backoff has begun to pass |
| `ProtocolRuns.UnscheduledIsNeverSent` | `domain/outbox.py:86-94` | in no run is a row without a schedule handed to the provider |
| `ProtocolRuns.CopiedToDeadLetters` | `domain/dead_letter.py:155-188` | any row may be copied to the dead letters and stays as it is |
| `ProtocolRuns.ReplayIsDue` | `domain/dead_letter.py:255-288` | a replay is a new row beside the old one, with no invoice and a budget of three, on offer at once; the letter is used up; under a key in use it changes nothing |
| `ProtocolRuns.UnresolvedIff` | `domain/outbox.py:183-189` | an unknown delivery is a candidate for reconciliation exactly from ten minutes after its last touch on |
| `ProtocolRuns.RunWithRoomTakesAll` | `domain/outbox.py:184-194` | while there are at most a hundred candidates a run takes exactly those |
| `ProtocolRuns.RunEndsRows` | `workers/reconciliation.py:51-83` | such a run leaves each of them as the answer about it says, and every other row alone: between ten minutes and 72 hours, with an id to ask with, "delivered" gives Delivered and "not_found" gives Pending with a retry counted |
| `ProtocolRuns.RunExists` | `domain/outbox.py:184-194` | in every state some run is possible, of at most a hundred rows, whatever is answered |
| `ProtocolRuns.PurgeRemovesIff` | `domain/retention.py:80-128` | a purge removes exactly the rows of its scope that were last touched over 90 days ago as Sent or Delivered, or over 30 days ago as Failed |
| `ProtocolRuns.PollsOfARunAreDisjoint` | `domain/outbox.py:88-102` | two polls of one run have no row in common unless the first one's batch ended in between |
| `ProtocolRuns.DeferredRowIsPolledLater` | `domain/outbox.py:90-93` | a poll returns a deferred row only after the quiet window it was deferred in has ended |
| `ProtocolRuns.DeferralsAreApart` | `workers/sends.py:83-94` | over any run, two committed deferrals of a row never fall in one quiet window |
| `ProtocolRuns.LeadsKeepsReached` | `workers/sends.py:32-155` | what a reachable state leads to is reachable, so the theorems hold after every task |
| `ReminderBudget.SubmitsWithinBudgets` | `domain/outbox.py:91-94` | the rows of one reminder, replays included, are submitted at most as often together as their budgets and aborts allow |
| `ReminderBudget.PotentialStep` | `domain/dead_letter.py:232-303` | only an insert that the table takes, or a copy to the dead letters, adds to what a reminder may cost; a replay uses up the letter it comes from |
| `ReminderBudget.TextsPerReminder` | `domain/dead_letter.py:155-303` | over any run from the start, one reminder is texted at most once per retry budgeted for every time it was really inserted or dead-lettered, plus once per aborted batch that had sent it; offers that the table refuses do not count |
| `Unconfirmed.NoIdRun` | `workers/sends.py:107-125` | no step but the recording of an accepted send gives a row a provider id |
| `Unconfirmed.NeverAcceptedIsNeverConfirmed` | `workers/reconciliation.py:66-71` | an unknown delivery never recorded as accepted is never cleared up by asking the provider: in every run it stays unknown until a callback first brings a word about it or a reconciliation run gives it up for its age |
| `Unconfirmed.ExpiredMayBeRetried` | `workers/reconciliation.py:57-64` | an expired unknown delivery fails whatever anyone answered, and may be retried at once |
| `SendWorker.FateShows` | `workers/sends.py:51-131` | the status a row leaves its pass with tells which branch it took; whatever is raised before its outcome is recorded leaves it Sending |
| `SendWorker.TallyAddsUp` | `workers/sends.py:35` | claimed and skipped add up to the batch, and the results to the claims, up to rows that raised after being counted |
| `SendWorker.TallyCounts` | `workers/sends.py:51-145` | each counter equals the number of rows with its fate; failed counts besides every row that raised after its result was counted |
| `SendWorker.HeardIs` | `workers/sends.py:107-147` | what the breaker is told of a row in each case: of an accepted text a success at its second, of a refused one a failure, of an ambiguous one nothing, of whatever raises a failure |
| `SendWorker.FailedBatchOpensBreaker` | `workers/sends.py:38-60` | after a batch of at least as many failures as the threshold no task may send until exactly the cooldown after the last of them, whatever went before |
| `SendWorker.AcceptedTextReopensBreaker` | `workers/sends.py:107-114` | an accepted text at the end of a batch lets every task send again, whatever failed before |
| `SendWorker.SendBreaker` | `workers/sends.py:37-40` | the task opens its breaker at five failures, for sixty seconds |
| `SendWorker.ProcessOne` | `workers/sends.py:51-145` | one pass leaves the row, the counters and the breaker's news as specified for each of its branches, and stops the loop exactly when its handler raises too |
| `SendWorker.HandleResult` | `workers/sends.py:107-137` | accepted, ambiguous and refused answers become Sent, UnknownDelivery and Failed, are told to the breaker or not, and raise when that or the audit entry does |
| `SendWorker.ProcessBatch` | `workers/sends.py:51-145` | the loop gives every row its own attempt's result and counts it once, up to and including the first pass whose handler raises |
| `SendWorker.Commit` | `workers/sends.py:149` | a commit writes exactly the batch's rows over the table |
| `SendWorker.PollAndSend` | `workers/sends.py:32-155` | the whole task: rows are processed exactly if the breaker's history allows it; it commits all of them, or, if the look at the breaker, the query, a handler or the commit raises, leaves the table as it was; the breaker keeps what it was told either way |
| `SendRefinement.AttemptIsRun` | `workers/sends.py:51-145` | one pass of the loop is a run of protocol steps with the same effect |
| `SendRefinement.BatchIsRun` | `workers/sends.py:51-145` | so is any first part of a batch |
| `SendRefinement.AfterAllIs` | `workers/sends.py:51-145` | each row that had its pass ends as its own attempt has it and is given to the provider at most once; the others are untouched |
| `SendRefinement.TaskIsRun` | `workers/sends.py:32-155` | poll, batch and commit are a run of the protocol that leaves the polled rows as the code does and the rest alone |
| `SendRefinement.CrashedTaskIsRun` | `workers/sends.py:139-153` | a rollback after any number of passes is a run that leaves the table as it was and the texts sent |
| `SendRefinement.LaterPoll` | `domain/outbox.py:88-100` | while the table stays as it is, a later poll of the same size may give the same rows again, since what comes due later sorts behind them |
| `SendRefinement.CrashTextsTwice` | `workers/sends.py:139-153` | after a rollback anywhere in a batch there is a next poll such that, however its task goes, every row that goes out in both is texted twice with no retry counted |
| `SendRefinement.RunTask` | `workers/sends.py:32-155` | every run of the task as code, however it begins and ends and also when nothing is due, leaves the stored table as a run of the protocol that counts its texts, under the breaker's own answer |
| `SendRefinement.RetryMayBeSentAtOnce` | `domain/outbox.py:164-170` | some run of the protocol hands a retried row to the provider before its backoff has begun to pass |
| `SendRefinement.DueRowMayBeSent` | `workers/sends.py:32-155` | for any row on offer and any free worker, some run from here hands it to the provider once more and leaves it Sent |
| `SendRefinement.NewRowMayBeSent` | `workers/sends.py:32-155` | some run from the insert of a due row on hands it to the provider exactly once in its life and leaves it Sent |
| `ReminderDelivery.OfferedReminderMayBeSent` | `workers/reminders.py:93-146` | from every reachable state, a reminder that a scheduler run offers and that is not in the table yet is texted exactly once, and Sent, by some run from that scheduler run on |
| `ReconcileWorker.VerdictShows` | `workers/reconciliation.py:52-79` | each counter's condition on row and answer, told apart by word, and the row it leaves; a row counted failed has not failed exactly when the provider reported no failure |
| `ReconcileWorker.ReportAddsUp` | `workers/reconciliation.py:48-79` | the five counters sum to the batch |
| `ReconcileWorker.ReportCounts` | `workers/reconciliation.py:48-81` | each counter equals the number of rows given its verdict |
| `ReconcileWorker.ReconcileOne` | `workers/reconciliation.py:52-79` | expiry, missing id, missing answer and answer each leave the row as specified |
| `ReconcileWorker.ReconcileUnknownDeliveries` | `workers/reconciliation.py:51-83` | the loop does so for every row, and its report counts exactly these verdicts |
| `ReconcileWorker.RunTask` | `workers/reconciliation.py:44-83` | a run of the task leaves its rows as the protocol's reconciliation step does, and its counters are those of the verdicts on them |
| `StatusWebhook.EventIdsEqualIff` | `api/webhooks/twilio.py:96-97` | two posts are one event exactly when provider id and word agree, for ids without a colon |
| `StatusWebhook.CallbackLog.StatusCallback` | `api/webhooks/twilio.py:46-121` | unknown message ignored, event known for any message refused before anything is written, else the word is applied and the event kept |
| `StatusWebhook.RepeatsAreDropped` | `api/webhooks/twilio.py:96-113` | any stream of posts about any messages leaves each row as the first-time events about it alone would |
| `StatusWebhook.RedeliveryIsHarmless` | `api/webhooks/twilio.py:96-113` | delivering known events again, in any order, changes nothing |
| `StatusWebhook.LastWordWins` | `domain/reconciliation_service.py:117-136` | after any such stream the last meaningful fresh word about a row decides its status, even if it takes a delivery back |
| `StatusWebhook.LastWordDecides` | `domain/reconciliation_service.py:117-136` | the same with the words spelled out: a last fresh "delivered" leaves Delivered, a last "sent", "queued" or "accepted" leaves Sent, a last "failed", "undelivered" or "rejected" leaves Failed |
| `StatusWebhook.FirstPostEndsAs` | `api/webhooks/twilio.py:96-113` | the first post of an event leaves its row as its word says, whatever the row said before, records the event and touches no other row |
| `StatusWebhook.FirstCallbackEndsAs` | `domain/reconciliation_service.py:105-136` | the protocol's callback step is possible for every row that no sender holds and does the same |
| `StatusWebhook.ForgottenCountsAgain` | `domain/retention.py:130-172` | an event on record changes nothing until its record is purged; after that it counts as a first post |
| `StatusWebhook.TakenIsCallback` | `api/webhooks/twilio.py:96-113` | taking a post about a row that no sender holds is the protocol's callback step |
| `PaymentPoll.SuppressPending` | `workers/reconciliation.py:149-159` | exactly the waiting rows of the invoice become Suppressed |
| `PaymentPoll.SyncPayment` | `workers/reconciliation.py:123-164` | one payment record: passed over, an error, or recorded, with suppression if the invoice is paid then |
| `PaymentPoll.PollPaymentUpdates` | `workers/reconciliation.py:92-167` | the whole poll refines the fold of single records, report included; without school or connector it changes nothing and reports which was missing |
| `PaymentPoll.ReportCounts` | `workers/reconciliation.py:121-164` | the report counts exactly the accepted records, those of them that left their invoice paid, and the refused records of known invoices |
| `PaymentPoll.PollRecordsPayments` | `workers/reconciliation.py:121-145` | every invoice ends with exactly its own payments recorded, in order, repeats and all |
| `PaymentPoll.PollSuppresses` | `workers/reconciliation.py:147-159` | a waiting row is suppressed exactly when the poll accepted a payment for its invoice and the invoice ended paid |
| `PaymentPoll.RepollIsHarmlessIff` | `workers/reconciliation.py:121-145` | polling the same records twice leaves every account as once exactly when every invoice they credit was settled by the first time |
| `PaymentRefinement.SuppressStepsIff` | `workers/reconciliation.py:147-159` | the suppressions a poll brings about are those of the invoices it settled, and no others |
| `PaymentRefinement.PollIsRun` | `workers/reconciliation.py:121-160` | what a poll does to the outbox is the protocol's run of exactly these suppressions |
| `PaymentRefinement.PollSilencesInvoice` | `workers/reconciliation.py:147-159` | a poll that accepts a payment for an invoice and leaves it paid suppresses its waiting rows, none of which is submitted in any run from there in which no callback first reports failure of it; other waiting rows it leaves alone |
| `PaymentRefinement.RunTask` | `workers/reconciliation.py:92-167` | the poll as code leaves its rows as a run of the protocol leaves the table |
| `Calendar.OrdinalOrders` | `domain/reminder_service.py:92-104` | day numbers order dates as the calendar does and tell any two apart |
| `Calendar.OrdinalCounts` | `domain/reminder_service.py:92-104` | the next calendar day has the next day number |
| `Calendar.KnownDays` | `domain/reminder_service.py:92-104` | the numbers of the first day of the calendar, of January 1, 1970, and of January 7, 2024 |
| `Reminders.DefaultSchedule` | `domain/reminder_service.py:64-134` | an invoice's reminders are due, if it is neither paid nor cancelled, 14 and 3 days before its due date, on it, and on every later day |
| `Reminders.OwnSchedule` | `domain/reminder_service.py:92-134` | under a schedule of the school's own, as many days before as it says, on the due date for a kind it leaves out; late notices as ever |
| `Reminders.SuppressesIff` | `domain/reminder_service.py:136-155` | a candidate is held back exactly if its invoice is paid or cancelled or its guardian takes no messages, and the first of these is the reason |
| `Reminders.IsReminderIff` | `domain/reminder_service.py:174-193` | what is found due on a day is exactly what is due of the listed invoices |
| `Reminders.DueForInOrder` | `domain/reminder_service.py:174-188` | an invoice's due reminders come as fourteen days, three days, due date, late notice |
| `Reminders.DueTypes` | `domain/reminder_service.py:180-190` | the inner loop finds the due kinds in order, late notice last |
| `Reminders.BuildCandidates` | `domain/reminder_service.py:157-210` | one candidate, with its key, for every reminder that is due, in order |
| `Dispatch.InsertedIs` | `domain/dispatch_service.py:77-82` | an insert leaves old rows alone, adds only offered rows with new keys, and keeps keys unique |
| `Dispatch.InsertedHasKeyIff` | `domain/dispatch_service.py:77-82` | a key is in the table afterwards exactly if it was before or was offered |
| `Dispatch.InsertTwice` | `domain/dispatch_service.py:77-90` | inserting values whose keys were offered before inserts nothing |
| `Dispatch.OutboxTable.InsertOutboxMessages` | `domain/dispatch_service.py:38-96` | the table after the call, and inserted plus duplicates equals the candidates offered |
| `Scheduler.ScreeningAddsUp` | `workers/reminders.py:105-132` | every candidate is cleared, held back or without a guardian |
| `Scheduler.Screen` | `workers/reminders.py:105-132` | the loop clears exactly the candidates with a guardian on file and no reason to hold back |
| `Scheduler.ComputeReminderCandidates` | `workers/reminders.py:53-153` | the table after a run, its counters, and that they account for every candidate; a run that raises leaves the table as it was |
| `Scheduler.DayRowsAre` | `domain/dispatch_service.py:62-76` | every row a run inserts waits from the run's instant on for the first of three attempts, under the key of a listed invoice's reminder, version v1 |
| `Scheduler.DayOffersIff` | `workers/reminders.py:76-132` | a run offers a reminder's key exactly when its invoice is listed as unpaid or partly paid, its guardian takes texts and it is due; no other reminder shares the key |
| `Scheduler.SecondRunInsertsNothing` | `workers/reminders.py:134-143` | a second run over the same data inserts nothing |
| `Scheduler.HistoryKeepsUnique` | `domain/models.py:393-395` | keys stay unique over any history of runs, rewrites, replies and replays |
| `Scheduler.InOutboxIff` | `workers/reminders.py:94-143` | over any history without purges, a reminder is in the outbox exactly when some run offered it, in whatever order and number the runs came |
| `Scheduler.OpenInvoiceRows` | `domain/reminder_service.py:174-210` | without purges, and whatever runs for other schools come in between, an invoice that its school's runs find open has one row for each of its four reminders that some of them came due for, hence at most one late notice ever |
| `Scheduler.NotOpenIsNotOffered` | `workers/reminders.py:79-86` | a run offers no key for an invoice that it lists neither as unpaid nor as partly paid, overdue ones included |
| `Scheduler.ClosedInvoiceGetsNoRow` | `workers/reminders.py:79-86` | over any history an invoice that no run finds unpaid or partly paid gets no row |
| `Scheduler.PaidInvoiceGetsNoRow` | `workers/reminders.py:79-86` | once paid, an invoice gets no row from any later run, whatever ledger operations follow |
| `SchedulerRefinement.DayIsRun` | `workers/reminders.py:134-146` | a scheduler run is a run of the protocol's inserts that leaves the table as the run says |
| `SchedulerRefinement.StepIsRewriting` | `domain/outbox.py:104-172` | every protocol step that neither inserts nor purges is a rewriting event of a scheduler history |
| `SchedulerRefinement.InsertIsAdded` | `workers/inbound.py:284-308` | the insert of a reply is the event that adds it |
| `SchedulerRefinement.ReplayIsAdded` | `domain/dead_letter.py:264-289` | the replay of a dead letter is the event that adds its key, and gives up the letter unless the key is in use |
| `SchedulerRefinement.RunIsHistory` | `workers/reminders.py:53-153` | a protocol run with its scheduler runs in place, and without purges, lists a scheduler history, event by event |
| `SchedulerRefinement.InTableIff` | `workers/reminders.py:94-143` | in such a run a reminder is in the table exactly when some scheduler run offered it, whatever senders and everyone else did meanwhile |
| `MessageKeys.KeyCanBeRead` | `domain/reminder_service.py:81-90` | cutting a key at its first six colons gives its seven fields back |
| `MessageKeys.DateCanBeRead` | `domain/reminder_service.py:87-90` | a date reads year, month and day with hyphens between |
| `MessageKeys.KindCanBeRead` | `domain/models.py:77-84` | the word for each kind of message |
| `MessageKeys.StampCanBeRead` | `workers/inbound.py:292` | an instant reads date, T, hour, minute, second, and six digits of fraction exactly if it has one |
| `MessageKeys.ReplyCanBeRead` | `workers/inbound.py:292` | cutting a reply's key at its first three colons gives school, guardian, the word "response" and the instant |
| `MessageKeys.ReplayCanBeRead` | `domain/dead_letter.py:267` | a replay's key is the replayed key, ":replay:" and fourteen digits |
| `MessageKeys.CompactCanBeRead` | `domain/dead_letter.py:267` | these digits read year, month, day, hour, minute and second |
| `MessageKeys.ReminderKeysEqualIff` | `domain/reminder_service.py:81-90` | two reminder keys are equal exactly when all seven fields are |
| `MessageKeys.SplitUndoesJoin` | `domain/reminder_service.py:87-90` | splitting undoes joining when only the last part may hold a colon |
| `MessageKeys.StampTextInjective` | `workers/inbound.py:292` | two instants with the same text are the same, fraction or none |
| `MessageKeys.ColonsOfText` | `domain/dead_letter.py:267` | the number of colons of any key tells how often it was replayed, up to those of its version |
| `MessageKeys.KeysNeverCollide` | `domain/dead_letter.py:267` | with no version that ends as a replay key does, reminder, reply and replay keys, replays of replays included, are equal only if they name the same message |
| `MessageKeys.ReplayVersionCollides` | `domain/reminder_service.py:87-90` | a version that ends as a replay key does makes its reminder's key the key of another reminder's replay |
| `MessageKeys.ReminderKeyIsTakenIff` | `domain/dead_letter.py:267` | a reminder's key is also another message's key exactly when its version ends as a replay key does |
| `InvoiceLedger.RunKeepsConsistent` | `domain/invoice_service.py:115-181` | over every run of payments and status changes 0 <= paid <= due, and Paid holds exactly at equality |
| `InvoiceLedger.MayBecomeIff` | `domain/invoice_service.py:44-64` | the ten moves of the transition table, and no others |
| `InvoiceLedger.PaidIsAbsorbing` | `domain/invoice_service.py:57` | no ledger operation moves a paid invoice |
| `InvoiceLedger.CancelledIsLeftAloneIff` | `domain/invoice_service.py:170-175` | a cancelled invoice is left alone exactly by runs without a valid payment |
| `InvoiceLedger.PaymentsAlone` | `domain/invoice_service.py:153-181` | payments alone leave min(due, sum) paid, and the status that goes with it |
| `InvoiceLedger.PaymentOrderIsIrrelevant` | `domain/invoice_service.py:153-181` | so their order does not matter |
| `InvoiceLedger.OneAnswer` | `domain/reconciliation_service.py:63-73` | with unique references the existence query finds at most one payment |
| `InvoiceLedger.RecordingKeepsUniqueIff` | `workers/reconciliation.py:136-143` | recording without asking keeps references unique exactly when the reference is new |
| `InvoiceLedger.ReconcileDropsRepeats` | `domain/reconciliation_service.py:63-86` | reconciling a stream leaves the books that its new payments alone leave, and the query never finds two |
| `InvoiceLedger.ReconcileTwice` | `domain/reconciliation_service.py:58-62` | reconciling referenced payments again changes nothing |
| `InvoiceLedger.Invoice.CreateInvoice` | `domain/invoice_service.py:77-113` | a positive amount and a due date not in the past give a consistent unpaid invoice; else the first failed check is the error |
| `InvoiceLedger.Invoice.UpdateStatus` | `domain/invoice_service.py:115-139` | refused and untouched, or moved; Paid fills the amount; consistency is kept |
| `InvoiceLedger.Invoice.RecordPayment` | `domain/invoice_service.py:141-181` | refused and untouched, or recorded and credited; consistency is kept |
| `InvoiceLedger.Invoice.ReconcilePayment` | `domain/reconciliation_service.py:49-86` | a known reference gives the payment on record and changes nothing, a new one is recorded, and references stay unique |
| `QuietHours.NextAllowedIsLeast` | `domain/quiet_hours.py:94-138` | the answer is the first instant from now on that is not quiet, at most a window's length off |
| `QuietHours.NextAllowedIsUnique` | `domain/quiet_hours.py:117-138` | any instant with those two properties is the answer, and asking at the answer gives it back |
| `QuietHours.QuietTestsAgree` | `domain/policy_service.py:167-178` | the policy's quiet test agrees with the enforced one exactly when start and end differ |
| `CircuitBreaker.MachineRefinesFormula` | `infra/circuit_breaker.py:91-173` | after any ordered history the three-state machine admits a call exactly if too few failures followed the last success or the cooldown has passed since the latest |
| `CircuitBreaker.ChecksDoNotMatter` | `infra/circuit_breaker.py:91-129` | asking changes no later answer |
| `CircuitBreaker.ReplayReflects` | `infra/circuit_breaker.py:131-173` | what the three stored keys say of the history |
| `CircuitBreaker.CircuitBreaker.CanExecute` | `infra/circuit_breaker.py:91-129` | the method answers as the formula over its history does |
| `CircuitBreaker.CircuitBreaker.RecordSuccess` | `infra/circuit_breaker.py:131-140` | a success closes the circuit and forgets all failures |
| `CircuitBreaker.CircuitBreaker.RecordFailure` | `infra/circuit_breaker.py:142-173` | a failure counts and, at the threshold or in HALF_OPEN, stamps the circuit open |
| `RateLimiter.LifetimeAdmits` | `infra/rate_limiter.py:66-79` | a counter's lifetime admits exactly min(limit, requests) |
| `RateLimiter.WindowAdmits` | `infra/rate_limiter.py:66-79` | any stretch no longer than the window admits at most twice the limit, for every arrival sequence |
| `RateLimiter.LimiterBoundsIff` | `infra/rate_limiter.py:41-79` | that bound holds for all arrivals exactly when the window is positive or the limit is not |
| `RateLimiter.RateLimiter.CheckRateLimit` | `infra/rate_limiter.py:41-79` | the stored counter, the answer and the waiting time; other keys untouched |
| `PolicyCache.RunStaysSound` | `domain/policy_service.py:81-143` | under any interleaving of loads and saves with failing cache calls, every cached or pending policy was the database's when it was read |
| `PolicyCache.ServedPolicyIsRecent` | `domain/policy_service.py:86-115` | a policy served from the cache was the database's less than 300 seconds plus its load's gap ago |
| `PolicyCache.HitIff` | `domain/policy_service.py:86-95` | the cache answers exactly for less than 300 seconds after it was written |
| `PolicyCache.WithoutPolicy` | `domain/policy_service.py:47-58` | without a cached or stored policy a load gives version v1, quiet hours from 21 to 8, three attempts, enabled |
| `PolicyCache.StraddlingLoadServesOldPolicy` | `domain/policy_service.py:86-143` | an input for which the condition below fails: a load that straddles a save serves the old policy although nothing failed |
| `PolicyCache.ServesFromNowOnIff` | `domain/policy_service.py:86-115` | once a policy is in the database, under any interleaving without another save every load gets it exactly when no pending load has read another and the cache serves no other |
| `PolicyCache.SaveTakesEffectIff` | `domain/policy_service.py:117-143` | a save takes effect exactly when no load under way has read another policy and, if its invalidation fails, the cache serves no other |
| `PolicyCache.LoadGivesLastSaved` | `domain/policy_service.py:81-143` | without overlap or failed invalidation a load gives the last policy saved |
| `PolicyCache.SaveIsGivenIff` | `domain/policy_service.py:117-143` | one call at a time, a save is what every later load gives exactly when its invalidation got through or the cache served no other policy |
| `PolicyCache.PolicyService.LoadPolicy` | `domain/policy_service.py:81-115` | cache hit, database, default: what is returned and what is cached |
| `PolicyCache.PolicyService.SavePolicy` | `domain/policy_service.py:117-143` | refused and untouched if the school is not on file; else the database is written, the cache emptied if it can be reached |
| `BackupRetention.KeptExactly` | `infra/backup.py:142-171` | a file is kept exactly if it is among the newest keep_daily or a Sunday with fewer than keep_weekly Sundays between |
| `BackupRetention.IsSundayIff` | `infra/backup.py:163-166` | the files taken for Sundays are those whose calendar day number is a multiple of seven, which January 7, 2024 has |
| `BackupRetention.KeptByCalendar` | `infra/backup.py:142-171` | so by the calendar: a file of a known day is kept exactly if it is among the newest keep_daily or of a day with such a number, with fewer than keep_weekly Sundays between |
| `BackupRetention.PruneTwice` | `infra/backup.py:142-180` | a second prune deletes nothing |
| `BackupRetention.PruneAbsorbs` | `infra/backup.py:142-180` | files pruned earlier make no difference to a later prune |
| `BackupRetention.NightlyEqualsOnce` | `infra/backup.py:142-180` | pruning every night keeps exactly what one prune of the whole history keeps |
| `BackupRetention.BackupDirectory.ChooseKept` | `infra/backup.py:149-166` | the two loops choose exactly the files to keep |
| `BackupRetention.BackupDirectory.CleanupOldBackups` | `infra/backup.py:114-180` | the directory after a prune and the number deleted |
| `BackupRetention.BackupDirectory.RunBackupJob` | `infra/backup.py:183-226` | after every nightly job the directory is one prune of everything ever backed up |
| `BackupRetention.NightlyDirectory` | `infra/backup.py:114-118` | the nightly job keeps seven daily and four weekly files |

## Left out

- Twilio, HTTP, signatures, Celery, SQL and Redis themselves: their answers are inputs of the model, in every combination.
- PollAndSend: takes the answer of the poll query as an input; which answers are possible is said by `IsSelection` and `SendRefinement.RunTask`.
- Lock waits: a writer that meets a locked row is modelled as running after the sender's commit or abort, not as blocked.
- Clock reads inside one webhook, reconciliation or payment step are one instant; a send attempt has two, and what is raised in it is told at the second.
- Daylight saving changes: a school's zone is a fixed offset.
- `updated_at` as the database itself would stamp it on writes that do not name it; the model stamps every write to a row except a deferral by `DeferIfQuietHours`, which no worker calls.
- Columns that decide nothing here: body, segments, provider, suppression reason, audit rows, and the length limits of keys.
- A school's rows are not told apart from another's; a purge restricted to a school is a purge with a scope.
- Cascades from deleted schools and guardians, and soft deletion beyond the scheduler's filter.
- The replay of a dead letter gives its row no invoice, as in the code; a dead letter is only its key, and a replay that would reuse a key is refused and keeps the letter.
- How the webhook finds its message: the id found, or one that is not on file, is an input of `StatusCallback`.
- Reply and replay keys are inserted one at a time in a scheduler history; that the instant in them is the clock's is not used.
- Validation of policies.
- Dates that leave the calendar: a due date within two weeks of the first of January of year 1 raises in the code.
- Negative keep counts and failing deletions in the backup prune; modification times are taken to be distinct.
- A crash between the limiter's increment and its expiry, which leaves a counter that never expires.
- The breaker is told of a batch after it, not row by row; nothing in a batch asks it again. Its calls are taken as atomic across workers, although each is several store commands.
- CSV import, connectors, dashboard, settings, masking, keyword parsing, hardship and template rendering: plumbing, or claims about one function.
