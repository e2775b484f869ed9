# Mortgage service: a verified model

This project models the core of the mortgage service: how a loan is amortised, how payments are booked, how an
application moves through its phases, how it is terminated and what that does to the stock of property units, what
each party is told to do next, and how a questionnaire is scored. It proves what these parts are meant to guarantee,
for all inputs and over whole runs, and where the code does not guarantee it, when exactly it does.

Database rows are values held in the fields of a class; each `$transaction` is one method; a thrown `AppError` is an
`Err` result that leaves the fields as they were. Loops stay loops. Each such method is proved equal to a function of
its old state, and the laws are lemmas about these functions and about runs built from them. Methods without a loop or a
call that merely follow their function (activation, signing, the steps of a refund and the like) and lemmas that only
prepare a larger one have no row in the table below.

| file | part of the system |
|---|---|
| `Common.dfy`, `Power.dfy` | results and errors; natural powers and Bernoulli's inequality |
| `Amortisation.dfy`, `LoanTerms.dfy`, `LoanNumbers.dfy` | schedules in exact arithmetic; rounding, terms, quotes, due dates, the age limit; rates and rows in figures |
| `Payments.dfy`, `OptimisticLocking.dfy` | payments and the rows they name; concurrent completions under the `version` check |
| `Ledger.dfy`, `LedgerLaws.dfy`, `PayAheadLaws.dfy`, `CompletionLaws.dfy` | the serial ledger; cached amounts; greedy allocation; phase completion |
| `PhaseWorkflow.dfy`, `ApplicationCompletion.dfy` | the ordered phases and `currentPhaseId`; when an application is completed along with them |
| `WorkflowOutcomes.dfy`, `LedgerOutcomes.dfy`, `RegistryOutcomes.dfy`, `QuestionnaireOutcomes.dfy`, `ActionOutcomes.dfy` | for each operation, when it is taken and what it leaves in every row, told in plain terms without the functions of the model |
| `Settlement.dfy`, `Registry.dfy`, `TerminationLaws.dfy`, `InventoryLaws.dfy` | refund arithmetic; applications, units, counters and terminations; their laws |
| `Questionnaire.dfy` | scoring and decision |
| `CurrentAction.dfy` | what `getCurrentAction` tells each party, and whether the workflow takes it |

Money in the amortisation engine and in settlements is an exact real; in the ledger it is an integer number of kobo.
Dates are integer days. `dafny verify dfyconfig.toml` verifies the whole project.

## Hypotheses of the run laws

* Ledger (`AdmissibleRun`): payments and adjustments are created with positive amounts, pay-ahead is used while no open
  installment is overpaid, and a phase is completed by hand when its total is paid. What is kept without these is
  delimited exactly: `LedgerLaws.StepKeepsCacheIff` says of every call when stored amounts stay true, and
  `PayAheadLaws.NegativePaymentIff` when pay-ahead creates the negative payments that lead there.
  `CompletionLaws.StepTracksIff` does the same for phase statuses.
* Workflow (`Proper`): calls that do not look at the phase status are given an active phase; reopening resets what
  follows; nothing is skipped, and no approval taken back in a completed phase; every phase requires its predecessor.
  The `...KeepsFrontierIff` lemmas drop these and give the exact condition of each call.
* Termination (`Orderly`): `adminTerminate` is used only while no termination is live, and an application whose
  termination was executed is neither signed nor completed. `StepKeepsOnceIff` shows that exactly these are needed, and
  there is a run for each of the three.
* Inventory (`Proper`): only applications that still hold their unit are signed, completed or terminated. Conservation of the
  three counters needs no hypothesis.

## Where code and intention differ

The model follows the code. The lemmas named here say so for all inputs, or give a concrete run.

* `process` looks at the payment's status outside its transaction; two notifications for one payment can credit it
  twice; `OptimisticLocking.AlwaysAddsUpIff` says for which calls.
* A refund marks an overpaid installment PARTIALLY_PAID; pay-ahead then books a negative payment
  (`LedgerLaws.OverpaidRefundClamps`).
* Paying a phase off puts the next one IN_PROGRESS even if it is already paid or completed
  (`CompletionLaws.PaidPhaseRestarted`, `PhaseWorkflow.LatePaymentBreaksFrontier`). An adjustment completes a phase
  without starting the next, so nobody has work until that is done by hand (`CurrentAction.SettlingLeavesNobody`), and
  pay-ahead completes none.
* Some calls that end the last open phase do not complete the application: `createAdjustment`, `completePayment` and the
  questionnaire calls. `completeDocumentationPhase` would not either, but its only caller waits for a `stageCompleted`
  that the approval workflow never returns. `complete`, the approval workflow, the payment-phase event and the COMPLETE
  transition do. `ApplicationCompletion.StrandsIff` and `RescueIff` say exactly when an application is left behind and
  what completes it then.
* The end of the last phase's stages completes the application even if earlier phases never began
  (`ApplicationCompletion.CompletedTooEarly`).
* The customer is told to pay for a phase that takes no payments (`CurrentAction.PaymentGoesOnIff`).
* Manual `complete` stores the total of a payment phase as paid, whatever was paid (`LedgerLaws.FinishKeepsCacheIff`).
* `activate` makes a questionnaire ACTIVE, and answers are only taken IN_PROGRESS
  (`PhaseWorkflow.ActivatedQuestionnaireTakesNoAnswers`).
* `getCurrentAction` compares the number of answers sent with the number of questions, so leaving out one optional
  question hides the review from the platform (`CurrentAction.ReviewShownIffEnoughAnswers`).
* Documents that are not required hold up a review like any other, and a rejected document counts as uploaded
  (`CurrentAction.OptionalDocumentHoldsUpReview`, `CurrentAction.StatusesAreIgnored`).
* LENDER is treated as BANK when a caller is addressed and when documents are filed, but not when rights are checked or
  a stage's documents are chosen (`CurrentAction.LenderOnlyNeverActs`, `CurrentAction.LenderStageAsksNothing`).
* `sign` has no status guard, so a terminated application can be brought back and executed again
  (`TerminationLaws.SignedAfterEndExecutedTwice`). A completed application can be terminated
  (`InventoryLaws.CompletedThenTerminated`), and a terminated one completed
  (`TerminationLaws.CompletedAfterEndExecutedTwice`).
* A single installment is interest-free, so a longer term can cost more per period (`LoanTerms.TwoDearPayments`); the
  age check counts months of 30 days whatever the plan's interval (`LoanTerms.AgeCheckHoldsIff`).
* MIN_ALL lets a field pass that no rule matches (`Questionnaire.MinAllApprovesIff`, `UnmatchedFieldPasses`).

## Model

| member | source | states |
|---|---|---|
| `Amortisation.CalculateInstallments` | services/mortgage-service/src/services/application-phase.service.ts:673-752 | The loop that carries an unrounded balance and pushes rounded rows returns, row for row, the schedule taken from the closed-form balance `P*(q^n - q^i)/(q^n - 1)`; one payment is interest-free and due at the start date |
| `Amortisation.BalanceStep` | services/mortgage-service/src/services/application-phase.service.ts:733-736 | Taking a row's principal part off the closed-form balance gives the balance one payment later, at any rate including 0 |
| `Amortisation.PrincipalPartsSumToLoan` | services/mortgage-service/src/services/application-phase.service.ts:719-751 | The exact principal parts of a full schedule sum to the loan |
| `Amortisation.PrincipalPartsAreGeometric` | services/mortgage-service/src/services/application-phase.service.ts:733-735 | Each principal part is `1 + rate` times the one before |
| `Amortisation.InterestFalls` | services/mortgage-service/src/services/application-phase.service.ts:733-736 | With a positive rate, balance and interest strictly fall from row to row |
| `LoanNumbers.RoundsToIff` | services/mortgage-service/src/services/application-phase.service.ts:731-748 | Rounding gives n hundredths exactly for amounts from n - 1/2 up to, not including, n + 1/2 hundredths |
| `LoanNumbers.RatesOfCommonPlans` | services/mortgage-service/src/services/application-phase.service.ts:707-718 | The periodic rate is a 1200th of the yearly percentage at 30 days, a 2600th at 14 and a 5200th at 7 |
| `LoanNumbers.RateOfOtherPlans` | services/mortgage-service/src/services/application-phase.service.ts:707-718 | At any other positive interval it is the days' share of 36500, otherwise a 1200th |
| `LoanNumbers.FirstInterestOfCommonPlans` | services/mortgage-service/src/services/application-phase.service.ts:731-748 | The first row bears the loan times the yearly percentage over 1200, 2600 or 5200, rounded |
| `LoanNumbers.BiweeklyLoan` | services/mortgage-service/src/services/application-phase.service.ts:707-748 | 100000 at 26% in two biweekly payments bears 1000.00 first |
| `LoanNumbers.NumbersAndDueDates` | services/mortgage-service/src/services/application-phase.service.ts:695-749 | Numbers, due dates and amounts of every row, the single payment included |
| `LoanNumbers.CountsIff` | services/mortgage-service/src/services/application-phase.service.ts:594-607 | A schedule has n rows exactly for the selected term n of a flexible plan or the own number n of another, n above 0 |
| `LoanNumbers.TermAcceptedIff` | services/mortgage-service/src/services/application.service.ts:568-594 | A term is accepted exactly within the plan's limits, by default 12 to 360, and before the age limit where both ages are given |
| `LoanTerms.RoundedPrincipalWithinHalfKoboPerRow` | services/mortgage-service/src/services/application-phase.service.ts:731-748 | Rounding never accumulates: for every count, loan and rate the rounded principal column misses the loan by at most count/200 |
| `LoanTerms.RowBalances` | services/mortgage-service/src/services/application-phase.service.ts:742-748 | In every row the rounded amount is rounded principal plus rounded interest, up to one hundredth |
| `LoanTerms.LongerTermLowersPayment` | services/mortgage-service/src/services/application-phase.service.ts:721-729 | More periods make the periodic payment of the formula strictly smaller |
| `LoanTerms.LongerTermCostsMore` | services/mortgage-service/src/services/application-phase.service.ts:695-729 | More periods always cost strictly more in all, the interest-free single payment included |
| `LoanTerms.LongerTermLowersCharge` | services/mortgage-service/src/services/application-phase.service.ts:695-729 | What one period costs falls with the term, except against the interest-free single payment, where it falls exactly when `q^n * (1 - rate) > 1` |
| `LoanTerms.TwoDearPayments` | services/mortgage-service/src/services/application-phase.service.ts:695-752 | The exception happens: on a yearly plan at 100% a year each of two scheduled payments is 1200 against 900 for the whole loan paid at once |
| `LoanTerms.QuoteIsCharged` | services/mortgage-service/src/services/application.service.ts:50-65 | With interest and at least two installments, a 30-day plan charges exactly the quoted payment in every row |
| `LoanTerms.FlatQuoteWithinHalfKobo` | services/mortgage-service/src/services/application.service.ts:50-65 | Without interest the unrounded quote is within half a hundredth of every row |
| `LoanTerms.GenerateInstallments` | services/mortgage-service/src/services/application-phase.service.ts:571-617 | When installments are generated and when refused (other category, no plan, second time, no count), and that the rows are the schedule of the requested or stored rate |
| `LoanTerms.DueDatesIncrease` | services/mortgage-service/src/services/application-phase.service.ts:738-740 | Due dates strictly increase on every plan with a positive interval |
| `LoanTerms.TermMaturesInTime` | services/mortgage-service/src/services/application.service.ts:568-594 | A term accepted under the age limit is paid off within the limit when the interval is at most 30 days |
| `LoanTerms.AgeCheckHoldsIff` | services/mortgage-service/src/services/application.service.ts:568-594 | For every plan, age and start: all accepted terms are paid off within the age limit exactly when no term is accepted, or only a single payment, or interval times longest accepted term is at most 360 days for each year left |
| `LoanTerms.LongIntervalRunsLate` | services/mortgage-service/src/services/application.service.ts:568-594 | The same plan for up to 360 months accepts a term that runs past the limit |
| `OptimisticLocking.StepKeepsConsistent` | services/mortgage-service/src/services/application-payment.service.ts:470-531 | Every step of every transaction keeps: an equal version means an unchanged row, a written row stays as it was read until the commit, and no two open transactions hold one row |
| `OptimisticLocking.CommitCredits` | services/mortgage-service/src/services/application-payment.service.ts:470-531 | A commit adds the payment to exactly the rows it names and leaves every other row alone |
| `OptimisticLocking.NoLostUpdate` | services/mortgage-service/src/services/application-payment.service.ts:456-531 | Under every interleaving of any number of transactions a row is its start value plus the amounts of the committed ones, and its status agrees with its amounts |
| `OptimisticLocking.AlwaysAddsUpIff` | services/mortgage-service/src/services/application-payment.service.ts:431-531 | From every start and for every row: all interleavings leave start plus completed payments exactly when no two calls are for one payment that is INITIATED or PENDING and names the row |
| `OptimisticLocking.DistinctPaymentsAddUp` | services/mortgage-service/src/services/application-payment.service.ts:453-531 | Calls for distinct payments always leave paid amounts equal to start plus completed payments, with no condition on the interleaving |
| `OptimisticLocking.CheckedTwiceCreditedTwice` | services/mortgage-service/src/services/application-payment.service.ts:431-448 | A concrete run in which one payment of 100, notified twice, leaves 200 paid |
| `OptimisticLocking.OnlyCommitsWrite` | services/mortgage-service/src/services/application-payment.service.ts:453-531 | Rows and payments change at a commit only, and a call that is over is never resumed |
| `OptimisticLocking.StaleReadAborts` | services/mortgage-service/src/services/application-payment.service.ts:480-497 | A row that moved since it was read ends the call with nothing written |
| `OptimisticLocking.RunKeepsPaymentsExclusive` | services/mortgage-service/src/services/application-payment.service.ts:460-468 | Over every run no two open transactions are about one payment |
| `PhaseWorkflow.PhaseService.Complete` | services/mortgage-service/src/services/application-phase.service.ts:1422-1571 | Manual completion, its refusals, and when the application is completed with it |
| `PhaseWorkflow.PhaseService.Reopen` | services/mortgage-service/src/services/application-phase.service.ts:2386-2485 | Reopening, with or without reset of the later phases |
| `PhaseWorkflow.AdvanceKeepsFrontierIff` | services/mortgage-service/src/services/application-phase.service.ts:857-938 | Completing phase k and starting k+1 keeps the frontier exactly when k is the frontier, the completed phase just before it, or the one before that with nothing under way |
| `PhaseWorkflow.CompleteKeepsFrontierIff` | services/mortgage-service/src/services/application-phase.service.ts:1422-1469 | Manual completion keeps the frontier exactly when it is given the frontier phase |
| `PhaseWorkflow.ActivateKeepsFrontierIff` | services/mortgage-service/src/services/application-phase.service.ts:446-504 | Manual activation keeps it exactly when given the frontier phase |
| `PhaseWorkflow.ReopenKeepsFrontierIff` | services/mortgage-service/src/services/application-phase.service.ts:2401-2485 | Reopening keeps it exactly with reset, or on the last completed phase with nothing under way |
| `PhaseWorkflow.SettleKeepsFrontierIff` | services/mortgage-service/src/services/application-payment.service.ts:366-377 | An adjustment that completes phase k keeps the frontier exactly when k is the frontier phase or completed already |
| `PhaseWorkflow.SkipBreaksFrontier` | services/mortgage-service/src/services/application-phase.service.ts:2004-2020 | Skipping a phase breaks the frontier on every board |
| `PhaseWorkflow.RevertKeepsFrontierIff` | services/mortgage-service/src/services/application-phase.service.ts:2331-2348 | Taking back an approval in a completed phase keeps the frontier exactly on the last completed phase with nothing under way and `currentPhaseId` already on it |
| `PhaseWorkflow.RunKeepsFrontier` | services/mortgage-service/src/services/application-phase.service.ts:857-915 | The same over every proper run of any length |
| `PhaseWorkflow.LatePaymentBreaksFrontier` | services/mortgage-service/src/services/application-payment.service.ts:534-588 | A late payment on a completed phase restarts a phase behind the frontier: a concrete board |
| `PhaseWorkflow.ActivatedQuestionnaireTakesNoAnswers` | services/mortgage-service/src/services/application-phase.service.ts:1582-1594 | A questionnaire activated by hand can be neither answered nor reviewed, on any board |
| `PhaseWorkflow.LastPhaseCompletesApplication` | services/mortgage-service/src/services/application-phase.service.ts:1470-1518 | At the frontier, manual completion completes the application exactly on the last phase |
| `WorkflowOutcomes.SubmissionStartsFirstPhase` | services/mortgage-service/src/services/application.service.ts:1010-1028 | SUBMIT takes a draft to PENDING, puts a pending first phase IN_PROGRESS and points to it, and changes nothing else |
| `WorkflowOutcomes.TransitionsIff` | services/mortgage-service/src/services/application.service.ts:101-131 | The eleven transitions there are, exactly |
| `WorkflowOutcomes.ActivationOutcome` | services/mortgage-service/src/services/application-phase.service.ts:443-504 | When activation is taken, IN_PROGRESS for documentation and ACTIVE for the rest, all other rows untouched |
| `WorkflowOutcomes.AnswersOutcome` | services/mortgage-service/src/services/application-phase.service.ts:1582-1923 | When answers are taken, and what either outcome leaves in every row |
| `WorkflowOutcomes.ReviewOutcome` | services/mortgage-service/src/services/application-phase.service.ts:2055-2208 | When a review is taken, and what approval and rejection leave in every row |
| `WorkflowOutcomes.ManualCompletionOutcome` | services/mortgage-service/src/services/application-phase.service.ts:1422-1480 | When `complete` is taken, what it leaves, and when no other phase is unfinished |
| `WorkflowOutcomes.ReopeningOutcome` | services/mortgage-service/src/services/application-phase.service.ts:2386-2485 | When reopening is taken, and every row after it with and without reset |
| `WorkflowOutcomes.EndEventsOutcome` | services/mortgage-service/src/services/phase-orchestrator.service.ts:79-215 | The end of the stages and the payment event hand over, or complete the application; only the latter clears `currentPhaseId` |
| `WorkflowOutcomes.PhaseByPhase` | services/mortgage-service/src/services/application-payment.service.ts:534-588 | Submitted and paid off phase by phase, an application of any length always stands IN_PROGRESS at the next phase, which is pointed at |
| `ApplicationCompletion.Store.CompletePhaseAndActivateNext` | services/mortgage-service/src/services/phase-orchestrator.service.ts:63-239 | The orchestrator ends a phase, completed already or not, starts the next one or completes the application and clears `currentPhaseId` |
| `ApplicationCompletion.Store.MoveTo` | services/mortgage-service/src/services/application.service.ts:973-1035 | A transition follows the state table or is refused, and SUBMIT starts the first pending phase |
| `ApplicationCompletion.EventsKeepFrontierIff` | services/mortgage-service/src/services/approval-workflow.service.ts:800-834 | The end of the last approval stage and the payment-phase event, a repeated one included, keep the frontier under the same exact condition as every automatic completion |
| `ApplicationCompletion.StrandsIff` | services/mortgage-service/src/services/application-payment.service.ts:366-377 | For every event and any statuses: all phases are COMPLETED while the application goes on exactly after an adjustment or wallet payment that settles the only open phase, another call that silently ends the last phase, or the signing of an ended application |
| `ApplicationCompletion.NobodyLeftBehind` | services/mortgage-service/src/services/application-payment.service.ts:534-588 | Over every run of phase calls, adjustments, approval ends, payment events, transitions, signing and closing without such an event, no application is left behind |
| `ApplicationCompletion.PaidOffLastPhaseStrandsApplication` | services/mortgage-service/src/services/application-payment.service.ts:534-588 | At the frontier, paying off the last phase leaves the application behind, `complete` is refused for every phase, and the payment-phase event completes it |
| `ApplicationCompletion.RescueIff` | services/mortgage-service/src/services/phase-orchestrator.service.ts:206-239 | An application left behind is completed at once exactly by the end of the last approval stage, the event of its last payment phase, or the COMPLETE transition while ACTIVE |
| `ApplicationCompletion.StaysBehindIff` | services/mortgage-service/src/services/application-phase.service.ts:2401-2485 | Any other event leaves it behind, exactly unless it puts a phase back in progress or ends the application otherwise |
| `ApplicationCompletion.ReopenedRescueIff` | services/mortgage-service/src/services/application-phase.service.ts:2401-2485 | Reopening a phase and completing it by hand completes the application exactly when no later phase was reset |
| `ApplicationCompletion.CompletedInFullIff` | services/mortgage-service/src/services/approval-workflow.service.ts:876-916 | An event that completes an application leaves no phase unfinished exactly when it is `complete`, or the phases before the last were finished; a transition needs all finished beforehand |
| `ApplicationCompletion.FrontierCompletesInFullIff` | services/mortgage-service/src/services/approval-workflow.service.ts:876-916 | From a board with frontier c, an approval end or payment event that completes the application leaves no phase unfinished exactly when c + 1 is at least the number of phases |
| `ApplicationCompletion.CompletedTooEarly` | services/mortgage-service/src/services/approval-workflow.service.ts:876-916 | It can: with both phases PENDING, the end of the stages of the second completes the application |
| `ApplicationCompletion.AdjustmentSettles` | services/mortgage-service/src/services/application-payment.service.ts:359-380 | On the board an adjustment does nothing, or settles the phase exactly when payments and adjustments with it reach the total |
| `ApplicationCompletion.AdjustmentStrandsIff` | services/mortgage-service/src/services/application-payment.service.ts:359-380 | In amounts: an adjustment leaves an application behind exactly when it reaches a phase total and all other phases are COMPLETED |
| `ApplicationCompletion.EventMakesUpForSettling` | services/payment-service/src/services/allocation.service.ts:234-254 | A wallet payment that settles a phase, followed by its event, amounts to the event alone |
| `Ledger.PaymentService.CompletePayment` | services/mortgage-service/src/services/application-payment.service.ts:453-647 | The whole new state after a completed payment |
| `Ledger.PaymentService.RefundPayment` | services/mortgage-service/src/services/application-payment.service.ts:857-932 | The whole new state after a refund, clamps included |
| `Ledger.PaymentService.PayAheadOnInstallments` | services/mortgage-service/src/services/application-payment.service.ts:937-1049 | The loop that stops when the money is gone ends in the state of a full pass by due date |
| `Ledger.WalkStops` | services/mortgage-service/src/services/application-payment.service.ts:966-970 | Once no money is left, going on through the installments changes nothing: the early stop refines the full pass |
| `Ledger.PaymentService.CreateAdjustment` | services/mortgage-service/src/services/application-payment.service.ts:293-407 | The whole new state after an adjustment, duplicates refused |
| `Ledger.PaymentService.CompleteByHand` | services/mortgage-service/src/services/application-phase.service.ts:1422-1469 | Manual completion of a payment phase: refused while an installment is due, otherwise the total is stored as paid |
| `LedgerOutcomes.CreationOutcome` | services/mortgage-service/src/services/application-payment.service.ts:117-190 | Which payments are taken, and the row each leaves |
| `LedgerOutcomes.NotificationOutcome` | services/mortgage-service/src/services/application-payment.service.ts:431-448 | What a notification does for each status of the payment |
| `LedgerOutcomes.CompletionOutcome` | services/mortgage-service/src/services/application-payment.service.ts:470-531 | A completed payment in amounts: installment, account, statuses and versions, every other row untouched |
| `LedgerOutcomes.HandOverOutcome` | services/mortgage-service/src/services/application-payment.service.ts:509-588 | The phase hands over exactly when its paid amount, the payment and its adjustments reach its total |
| `LedgerOutcomes.RefundedRows` | services/mortgage-service/src/services/application-payment.service.ts:872-908 | A refund in amounts: 0 and PENDING if nothing is left, else the rest and PARTIALLY_PAID |
| `LedgerOutcomes.AdjustmentOutcome` | services/mortgage-service/src/services/application-payment.service.ts:293-357 | Which adjustments are applied, and that one booked from the same source is refused unless reversed |
| `LedgerOutcomes.CompletionByHandOutcome` | services/mortgage-service/src/services/application-phase.service.ts:1422-1469 | Manual completion is taken exactly when the phase is not completed and every installment is PAID or WAIVED |
| `LedgerOutcomes.SettledAreCounted` | services/mortgage-service/src/services/application-payment.service.ts:993-1005 | `installmentsPaid` is the number of installments the call turned to PAID |
| `LedgerLaws.PaidAmountsAreCaches` | services/mortgage-service/src/services/application-payment.service.ts:431-448 | The same over every run: `paidAmount` of each installment and phase is the sum of the completed payments naming it, however often one is processed |
| `LedgerLaws.StepKeepsCacheIff` | services/mortgage-service/src/services/application-payment.service.ts:857-908 | For every call from every state whose stored amounts are true: they stay true exactly unless it refunds more than a named row holds or completes by hand a phase not paid to its total |
| `LedgerLaws.FinishKeepsCacheIff` | services/mortgage-service/src/services/application-phase.service.ts:1458-1466 | Manual completion, which stores the total as paid, keeps stored amounts true exactly when the total was paid |
| `LedgerLaws.RefundNeverClamps` | services/mortgage-service/src/services/application-payment.service.ts:872-908 | In admissible runs the `Math.max(0, ...)` of a refund never bites |
| `LedgerLaws.PayAheadExplainsRows` | services/mortgage-service/src/services/application-payment.service.ts:969-1016 | Pay-ahead moves every row by exactly the payments it creates for it |
| `LedgerLaws.ProcessedOnce` | services/mortgage-service/src/services/application-payment.service.ts:431-448 | Once a payment is processed, no later notification for it changes anything, whatever calls happened in between |
| `LedgerLaws.OverpaidRefundClamps` | services/mortgage-service/src/services/application-payment.service.ts:872-908 | A concrete run outside the hypothesis: an overpaid open installment makes pay-ahead create a negative payment, and a refund then meets the clamp |
| `PayAheadLaws.GreedyByDueDate` | services/mortgage-service/src/services/application-payment.service.ts:947-1022 | With some installment open, none overpaid and an amount of at least 0: each installment is settled, partly paid or untouched according to what is owed up to it |
| `PayAheadLaws.EarlierDueFirst` | services/mortgage-service/src/services/application-payment.service.ts:947-1022 | If money reaches an installment, every open one due earlier is settled |
| `PayAheadLaws.PaysWhatIsOwed` | services/mortgage-service/src/services/application-payment.service.ts:1018-1048 | Paid is min(amount, owed), and the rest is returned as credit |
| `PayAheadLaws.CreatedPaymentsAddUp` | services/mortgage-service/src/services/application-payment.service.ts:975-992 | The created payments sum to what was paid |
| `PayAheadLaws.AccountsFollowInstallments` | services/mortgage-service/src/services/application-payment.service.ts:1006-1016 | A phase account moves by exactly what the installments of that phase moved |
| `PayAheadLaws.PayAheadComposes` | services/mortgage-service/src/services/application-payment.service.ts:966-1022 | Paying ahead a, short of the total, then b leaves the same installments, accounts and credit as a + b |
| `PayAheadLaws.NegativePaymentIff` | services/mortgage-service/src/services/application-payment.service.ts:969-992 | With an overpaid open installment, a negative payment arises exactly when the amount exceeds what is owed before it |
| `CompletionLaws.CompletionTracksIff` | services/mortgage-service/src/services/application-payment.service.ts:509-588 | A completed payment keeps "COMPLETED exactly when the total is reached" unless it restarts a next phase that is already paid, exactly |
| `CompletionLaws.AdjustmentTracksIff` | services/mortgage-service/src/services/application-payment.service.ts:359-380 | An adjustment keeps it exactly when it does not undo a reached phase |
| `CompletionLaws.RefundTracksIff` | services/mortgage-service/src/services/application-payment.service.ts:896-908 | A refund keeps it exactly when it does not undo a reached phase |
| `CompletionLaws.PhaseGainsBrought` | services/mortgage-service/src/services/application-payment.service.ts:966-1016 | The installments of a phase gain, each, what is left of the amount after all due before, up to what it is owed |
| `CompletionLaws.OnlyPhaseGetsAll` | services/mortgage-service/src/services/application-payment.service.ts:966-1016 | A phase that owns all installments gets the amount or all that is owed, whichever is less |
| `CompletionLaws.PayAheadTracksIff` | services/mortgage-service/src/services/application-payment.service.ts:1006-1022 | Pay-ahead keeps it exactly when, for no open phase, what its installments are owed within the amount reaches the rest of its total |
| `CompletionLaws.FinishTracksIff` | services/mortgage-service/src/services/application-phase.service.ts:1449-1466 | Completing a fully paid phase by hand keeps it exactly unless additions outweigh reductions |
| `CompletionLaws.StepTracksIff` | services/mortgage-service/src/services/application-payment.service.ts:509-588 | For every admissible call of all six kinds: status and amounts agree afterwards exactly when it is none of the five crossings, each told from the state before |
| `CompletionLaws.StatusTracksAmounts` | services/mortgage-service/src/services/application-payment.service.ts:509-588 | Over all admissible runs without a crossing, refunds, pay-ahead and additions included, every payable phase is COMPLETED exactly when its total is reached |
| `CompletionLaws.PayAheadCompletesNothing` | services/mortgage-service/src/services/application-payment.service.ts:1006-1022 | Pay-ahead never changes a phase status or `currentPhaseId` |
| `CompletionLaws.PaidPhaseRestarted` | services/mortgage-service/src/services/application-payment.service.ts:534-588 | The excluded case happens: paying off one phase puts an already paid one back to IN_PROGRESS |
| `Settlement.NetWithinPaid` | services/mortgage-service/src/services/application-termination.service.ts:128-226 | For every reason, 0 <= net refund <= total paid |
| `Settlement.NetGrowsWithPaid` | services/mortgage-service/src/services/application-termination.service.ts:128-226 | The net refund grows with what was paid and never faster, for every reason |
| `Settlement.WaitingNeverPays` | services/mortgage-service/src/services/application-termination.service.ts:150-171 | A signed buyer who withdraws later never gets more |
| `Settlement.GraceRefund` | services/mortgage-service/src/services/application-termination.service.ts:150-171 | Within grace the refund is the larger of 90% of what was paid and what was paid less the flat fee |
| `Settlement.SettlementAddsUpIff` | services/mortgage-service/src/services/application-termination.service.ts:128-226 | Refund, penalty, forfeit and fee add up to the amount paid exactly when the deductions fit into it |
| `Settlement.RefundsInNumbers` | services/mortgage-service/src/services/application-termination.service.ts:134-226 | The default refund for each reason in numbers: all for the seller's and outside reasons, less 500 by agreement, less 7% and 500 on default, less 2% and 500 without documents, nothing for fraud |
| `Settlement.WithdrawalsInNumbers` | services/mortgage-service/src/services/application-termination.service.ts:150-171 | The default refund of a withdrawing buyer before the signature, within 14 days of it, and later |
| `Registry.Store.Request` | services/mortgage-service/src/services/application-termination.service.ts:236-395 | A termination request: refusals, automatic approval, and immediate execution |
| `Registry.Store.TerminateByAdmin` | services/mortgage-service/src/services/application-termination.service.ts:400-502 | An admin termination, which does not look for a live one |
| `Registry.Store.Review` | services/mortgage-service/src/services/application-termination.service.ts:507-635 | Review with overrides; approval without a refund executes at once |
| `RegistryOutcomes.NoRefundLost` | services/mortgage-service/src/services/application-termination.service.ts:522-631 | Over every run nothing is owed on an executed termination: no refund applied, it was made, or its net came to nothing |
| `RegistryOutcomes.ApprovalOutcome` | services/mortgage-service/src/services/application-termination.service.ts:522-631 | An approved refund that is due rests as PENDING_REFUND with every other row untouched; one that is not due ends the application |
| `RegistryOutcomes.RequestOutcome` | services/mortgage-service/src/services/application-termination.service.ts:285-351 | What a request files: settlement, refund status, and execution exactly for an unsigned application without completed payments |
| `RegistryOutcomes.AdminOutcome` | services/mortgage-service/src/services/application-termination.service.ts:420-480 | What an admin files, with and without bypassing the review |
| `RegistryOutcomes.RefundConfirmedOutcome` | services/mortgage-service/src/services/application-termination.service.ts:701-753 | Who may confirm a refund when, the amount recorded, and the end of the application |
| `RegistryOutcomes.CreationOutcome` | services/mortgage-service/src/services/application.service.ts:301-398 | When a unit is reserved for a buyer, and every row that changes |
| `TerminationLaws.StepLowersRank` | services/mortgage-service/src/services/application-termination.service.ts:522-631 | Every accepted step on a termination strictly lowers its rank; every other step of the system leaves it unchanged |
| `TerminationLaws.AtMostRankSteps` | services/mortgage-service/src/services/application-termination.service.ts:522-751 | Over any run a termination accepts at most as many steps as its rank, which is at most 3 |
| `TerminationLaws.FinishedStaysFinished` | services/mortgage-service/src/services/application-termination.service.ts:522-751 | COMPLETED, REJECTED and CANCELLED are absorbing |
| `TerminationLaws.GuardsNeverFire` | services/mortgage-service/src/services/application-termination.service.ts:654-660 | Review, refund and confirmation are accepted exactly in their status: the amount guard of `processRefund` and the status guard of `executeTermination` never refuse |
| `TerminationLaws.LiveNeverStuck` | services/mortgage-service/src/services/application-termination.service.ts:522-751 | While a termination is live, some step on it is accepted |
| `TerminationLaws.AutoApprovedExecutesAtOnce` | services/mortgage-service/src/services/application-termination.service.ts:292-351 | A request that needs no approval ends finished and executed, with the application terminated, within the call |
| `TerminationLaws.ExecutedAtMostOnce` | services/mortgage-service/src/services/application-termination.service.ts:758-824 | Over every orderly run an application is executed at most once and has at most one live termination |
| `TerminationLaws.AdminKeepsOneEachIff` | services/mortgage-service/src/services/application-termination.service.ts:400-480 | An admin termination keeps this exactly when no other termination is live |
| `TerminationLaws.StepKeepsOnceIff` | services/mortgage-service/src/services/application-termination.service.ts:270-283 | For every step of the system: at most one live or executed termination per application, with executed ones staying ended, is kept exactly when the step is refused or orderly |
| `TerminationLaws.SignKeepsEndedIff` | services/mortgage-service/src/services/application.service.ts:1054-1076 | Signing makes any application ACTIVE, a cancelled one included; executed terminations keep their applications ended exactly when the signed one has none |
| `TerminationLaws.FinishKeepsEndedIff` | services/mortgage-service/src/services/application-phase.service.ts:1470-1518 | The same of completing an application |
| `TerminationLaws.TerminatedDuringReviewExecutedTwice` | services/mortgage-service/src/services/application-termination.service.ts:400-480 | An admin terminates during a review that is then approved: the unit is released twice |
| `TerminationLaws.CompletedAfterEndExecutedTwice` | services/mortgage-service/src/services/application-phase.service.ts:1470-1518 | An application completed after its termination can be terminated again: the unit is released twice |
| `TerminationLaws.SignedAfterEndExecutedTwice` | services/mortgage-service/src/services/application.service.ts:1054-1092 | An application signed after its termination is executed a second time: a concrete run that drives a counter to -1 |
| `InventoryLaws.UnitsAreConserved` | services/mortgage-service/src/services/application-termination.service.ts:783-813 | available + reserved + sold of each variant is constant over every run, with no condition |
| `InventoryLaws.MoveAgreesIff` | services/mortgage-service/src/services/application.service.ts:327-381 | A unit move keeps counters equal to the units in each status exactly when they move with its two statuses |
| `InventoryLaws.ExecuteAgreesIff` | services/mortgage-service/src/services/application-termination.service.ts:783-813 | Executing a termination keeps them equal exactly when the unit is reserved |
| `InventoryLaws.CompleteAgreesIff` | services/mortgage-service/src/services/application-phase.service.ts:1470-1518 | Completing an application keeps them equal exactly when its unit is reserved |
| `InventoryLaws.StockStaysTrue` | services/mortgage-service/src/services/application.service.ts:327-381 | The same over every proper run |
| `InventoryLaws.CompletedThenTerminated` | services/mortgage-service/src/services/application-termination.service.ts:783-813 | A completed application that is terminated breaks the counters: a concrete state |
| `Questionnaire.FirstMatchWins` | services/mortgage-service/src/services/application-phase.service.ts:1674-1752 | The score of a list of rules is that of its first matching rule |
| `Questionnaire.ScoreRules` | services/mortgage-service/src/services/application-phase.service.ts:1674-1752 | The inner loop with `break` returns the first match's score and verdict, 0 and a pass if there is none |
| `Questionnaire.ScoreFields` | services/mortgage-service/src/services/application-phase.service.ts:1655-1752 | The outer loop returns the sum over answered, visible fields of weight times score, and the conjunction of their verdicts |
| `Questionnaire.Submit` | services/mortgage-service/src/services/application-phase.service.ts:1578-1818 | When a submission is accepted, its total and decision under each strategy, and automatic completion exactly on a pass with automatic decision |
| `Questionnaire.TotalIgnoresOrder` | services/mortgage-service/src/services/application-phase.service.ts:1655-1752 | The total is the same for every permutation of the fields |
| `Questionnaire.DecisionIgnoresOrder` | services/mortgage-service/src/services/application-phase.service.ts:1753-1776 | So is the decision, under every strategy |
| `Questionnaire.MinAllApprovesIff` | services/mortgage-service/src/services/application-phase.service.ts:1753-1776 | Under MIN_ALL the decision means that every field with rules is approved by its first match, exactly when no such field is unmatched or one is rejected anyway |
| `Questionnaire.UnmatchedFieldPasses` | services/mortgage-service/src/services/application-phase.service.ts:1655-1776 | An input where it does not: 17 against the rule "over 18" scores 0, passes and completes its phase automatically |
| `QuestionnaireOutcomes.NumericRules` | services/mortgage-service/src/services/application-phase.service.ts:1680-1720 | Each numeric operator as a comparison of the answer with the rule's value |
| `QuestionnaireOutcomes.MatchAddsWeightedScore` | services/mortgage-service/src/services/application-phase.service.ts:1655-1752 | A field adds its first match's score times the weight of its question, 1 where that is missing or 0, and passes exactly on a positive score |
| `QuestionnaireOutcomes.TotalDecides` | services/mortgage-service/src/services/application-phase.service.ts:1754-1776 | SUM, WEIGHTED_SUM and no strategy compare the total with the score to reach: the phase's own unless 0, else the plan's, else 0 |
| `QuestionnaireOutcomes.AverageDecides` | services/mortgage-service/src/services/application-phase.service.ts:1754-1776 | AVERAGE passes exactly when the total reaches that score once for every field |
| `CurrentAction.BindOrganizations` | services/mortgage-service/src/services/application.service.ts:1347-1357 | The loop keeps, per type code, the organization bound last |
| `CurrentAction.SplitByStage` | services/mortgage-service/src/services/application.service.ts:1569-1581 | The two lists are the definitions of this stage and those of later ones, in order |
| `CurrentAction.GroupPending` | services/mortgage-service/src/services/application.service.ts:1583-1593 | The grouping loop has an entry for exactly the parties with missing documents, holding these in order |
| `CurrentAction.Decide` | services/mortgage-service/src/services/application.service.ts:1624-1693 | The branches for one party agree with: upload what is missing now; else wait; else review; else wait for later documents |
| `CurrentAction.GetCurrentAction` | services/mortgage-service/src/services/application.service.ts:1253-1814 | The whole answer: not found, no current phase, or the first live phase with every party's action, list, staff and right to act |
| `ActionOutcomes.UploadIff` | services/mortgage-service/src/services/application.service.ts:1545-1645 | A party uploads exactly when the stage asks it (customer and platform at the platform's, developer and bank at the customer's, otherwise the reviewer) and a document of its own was never uploaded |
| `ActionOutcomes.UploadListNames` | services/mortgage-service/src/services/application.service.ts:1583-1645 | Every such document is named in its party's list |
| `ActionOutcomes.ReviewIff` | services/mortgage-service/src/services/application.service.ts:1653-1665 | The reviewer reviews exactly when no document asked for at the stage is missing and the stage is not completed |
| `ActionOutcomes.PlatformStageAsksCustomer` | services/mortgage-service/src/services/application.service.ts:1545-1645 | At a platform stage a missing document of the customer makes the customer upload and keeps the platform from reviewing |
| `ActionOutcomes.CustomerStageAsksOfferers` | services/mortgage-service/src/services/application.service.ts:1545-1645 | At a customer stage the developer and the bank are asked, the lender's documents being the bank's |
| `ActionOutcomes.OwnStageAsksOwnDocuments` | services/mortgage-service/src/services/application.service.ts:1545-1645 | At any other stage only the reviewer itself is ever asked |
| `ActionOutcomes.StageReviews` | services/mortgage-service/src/services/application.service.ts:1426-1431 | The first stage with the current order, 1 by default, names the reviewer, PLATFORM by default |
| `ActionOutcomes.ToldIff` | services/mortgage-service/src/services/application.service.ts:1609-1615 | The parties that are told something: customer, reviewer, owners of documents, bound organizations |
| `ActionOutcomes.LastBindingCounts` | services/mortgage-service/src/services/application.service.ts:1347-1357 | The organization bound last under a code says who is assigned; an empty id is nobody |
| `ActionOutcomes.CallersParty` | services/mortgage-service/src/services/application.service.ts:1359-1374 | A caller is the customer by id, otherwise bank or lender, platform, developer, legal, insurer, government in this order |
| `ActionOutcomes.QuestionnairePhaseOutcome` | services/mortgage-service/src/services/application.service.ts:1494-1533 | Who is told what in a questionnaire phase |
| `ActionOutcomes.SubmittedShowsFirstPhase` | services/mortgage-service/src/services/application.service.ts:1010-1028 | After SUBMIT the first phase is the current one |
| `CurrentAction.SomeoneActsIff` | services/mortgage-service/src/services/application.service.ts:1473-1693 | No deadlock: everybody waits only at a gate, or when all documents of the stage are there and the stage is COMPLETED, exactly |
| `CurrentAction.OneKindOfWork` | services/mortgage-service/src/services/application.service.ts:1624-1693 | Nobody uploads while somebody reviews, and at most one party reviews |
| `CurrentAction.MayActIff` | services/mortgage-service/src/services/application.service.ts:1376-1392 | The caller may act for a party exactly when the party does not wait and the caller's code and assignment allow it |
| `CurrentAction.UploadsPartitionTheStage` | services/mortgage-service/src/services/application.service.ts:1583-1645 | Over all parties the UPLOAD lists are a partition of the missing documents of the current stage, repetitions counted |
| `CurrentAction.LenderStageAsksNothing` | services/mortgage-service/src/services/application.service.ts:1545-1581 | A stage reviewed by LENDER never asks for a document, because uploads by LENDER are filed under BANK |
| `CurrentAction.StatusesAreIgnored` | services/mortgage-service/src/services/application.service.ts:1459-1461 | What every party of a documentation phase is told is the same for all statuses of the uploaded documents, REJECTED included |
| `CurrentAction.UploadAskedIff` | services/mortgage-service/src/services/application.service.ts:1583-1660 | Somebody is asked to upload exactly when a document of the stage was never uploaded; otherwise an open stage is reviewed, rejected documents or not |
| `CurrentAction.OptionalDocumentHoldsUpReview` | services/mortgage-service/src/services/application.service.ts:1583-1660 | A missing document that is not required keeps every party from reviewing |
| `CurrentAction.ToldAndAllowedIff` | services/mortgage-service/src/services/application.service.ts:1359-1392 | A caller whose own party has work may do it exactly when it holds that very code and nobody else is assigned |
| `CurrentAction.LenderOnlyNeverActs` | services/mortgage-service/src/services/application.service.ts:1359-1392 | A user whose only code is LENDER is addressed as BANK and may never act for it |
| `CurrentAction.QuestionnaireGoesOnIff` | services/mortgage-service/src/services/application.service.ts:1494-1533 | In a live questionnaire phase somebody is told to act, but the workflow takes that act exactly when the phase is IN_PROGRESS, or awaits approval with all answers counted |
| `CurrentAction.PaymentGoesOnIff` | services/mortgage-service/src/services/application.service.ts:1473-1493 | The customer of a payment phase is always told to pay; a payment is taken exactly when the phase has no account, collects funds, or some installment is open to pay-ahead |
| `CurrentAction.ReviewShownIffEnoughAnswers` | services/mortgage-service/src/services/application-phase.service.ts:1797-1806 | After an accepted submission without automatic decision the questionnaire goes on exactly when at least as many answers were sent as there are questions, unknown and repeated ones counted |
| `CurrentAction.ReviewShownIffAllAnswered` | services/mortgage-service/src/services/application-phase.service.ts:1797-1806 | When each answer is for a question of its own, the review is shown exactly when every question was answered; one optional question left out stalls the phase |
| `CurrentAction.RejectionLeavesNobody` | services/mortgage-service/src/services/application-phase.service.ts:2055-2208 | Rejecting a questionnaire of an application at the frontier leaves no current phase, so no party has anything to do |
| `CurrentAction.SettlingLeavesNobody` | services/mortgage-service/src/services/application-payment.service.ts:366-377 | Settling the frontier phase by an adjustment keeps the frontier but leaves no current phase; the next one can be activated by hand |

## Left out

- IEEE floating point and `Math.pow`: amounts are exact reals or integer kobo, so errors of double precision are not covered.
- MINUTE payment frequency: intervals are whole days.
- Ledger.PaymentService.PayAheadOnInstallments: does not model the split of each created payment into principal and interest, nor `nextPaymentDueDate`; installments with equal due dates are taken in listing order.
- OptimisticLocking.NoLostUpdate: refund, pay-ahead and adjustments are not among the concurrent calls, because they neither check nor bump a version.
- Ledger.PaymentService.CompletePayment: `nextPaymentDueDate` and a unit-lock conflict that rolls the transaction back are left out.
- Ledger.PaymentService.PayOnPhase: the unit-lock conflict is left out.
- Ledger.PaymentService.CompleteByHand: open stages of a documentation phase are checked in PhaseWorkflow only.
- Ledger.PaymentService.CreatePayment: payment references are positions, so the check for a reference already in use has no counterpart; gateway data is left out.
- PhaseWorkflow.PhaseService.Complete: open installments and stages are given as a number; the rows themselves and the overwriting of `paidAmount` are in Ledger.PaymentService.CompleteByHand.
- PhaseWorkflow.PhaseService.Reopen: the reset of documentation stage rows is left out.
- ApplicationCompletion.StrandsIff: the guards of signing, cancelling and terminating are left to Registry; a change of payment method, which supersedes phases and adds new ones, is left out.
- ApplicationCompletion.Store.CompletePhaseAndActivateNext: the sale of the unit is InventoryLaws' matter, and the initialisation of approval stages is left out.
- Documentation stages: the completion of a documentation phase is a step of its own; what reviewers decide within a stage is not part of this model, nor is `evaluatePhaseCompletionInternal`, which has no caller.
- Questionnaire.Submit: JavaScript's conversions of answers to numbers and text, and field visibility, are parameters; the answers scored come as a map, the last one of a name counting.
- CurrentAction.GetCurrentAction: messages, `currentStep`, `reviewStage`, the list of uploaded documents and the texts of definitions without any name or type are left out.
- Registry.Store.Create: refusals over inactive or empty payment methods, a missing buyer or an inactive developer, application numbers, template copying and the order of validation inside templates are left out; a unit is named by its position.
- Registry.Store.ExecuteTermination: unit locks, payment-method links and the transfer of ownership are left out, and so is the lock release of `cancel`.
- Settlement.NetWithinPaid: policies other than the defaults are covered as far as `SoundPolicies` allows; the refund deadline is left out.
- The wallet allocation of the payment service: only its effect on phases is modelled, not its own booking of amounts.
- Domain events, notifications, the outbox, idempotency keys, tenancy and authorization of routes: they do not change the modelled state.
- Several applications at once: the ledger and the workflow hold the rows of one application.
- Template versions, organization bindings, scheduled checks and role policies: single-row rules that would only add easy members.
