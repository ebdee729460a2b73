# ACH payment processor: model and proofs

This project models the two halves of the payment processor that have to be right, and
proves what they promise.

**Payments.** One workflow per payment moves a row of the payments table, an append-only audit
log and a Redis set of trace numbers forward through activities that may fail, run again, or
succeed without their caller hearing of it. `Workflow.dfy` states it as a step machine over a
world shared by any number of workflows; a run is any list of actions (time passes, a payment
is created, a workflow is started, a signal is delivered, one workflow takes one step with a
chosen fault). `WorkflowInvariant.dfy`, `WorkflowProof.dfy` and `WorkflowRuns.dfy` give one
invariant and prove that every action of every interleaving keeps it; `WorkflowTheorems.dfy`,
`WorkflowBounds.dfy`, `WorkflowProgress.dfy` and `WorkflowCollision.dfy` say what follows, and
`WorkflowSteps.dfy` pins each single step in numbers and names.
`Store.dfy`, `Redis.dfy`, `Rules.dfy` and `RCodes.dfy` are the database, the key set, the state
machine and the return codes as values; `Repository.dfy`, `RedisClient.dfy`, `Activities.dfy` and
`PaymentWorkflow.dfy` are the objects of the source, proved against those values. The workflow
method itself is proved to stay inside the reachable worlds of the step machine, so every
theorem about runs holds of it.

**Return files.** `Generator.dfy` lays fields into 94-character records, `Text.dfy` and
`Parser.dfy` split and read them, `ParserColumns.dfy` says by columns alone what they accept and
return, `ParserLaws.dfy` and `RoundTrip.dfy` relate writing and reading, `Simulator.dfy` prints,
parses, compares and signals, and `ReturnFiles.dfy` follows a file's entries into the signal
queues of the workflows.

The representment limit and the number of attempts per activity call are parameters of every
theorem (`Config`); the code uses 2 (NACHA Operating Rules, Subsection 2.12.4, as cited at
internal/domain/rules.go:15) and 3. The record formats are those of NACHA Operating Rules,
Appendix Three, and the return addenda that of Appendix Four.

What the proofs found out about the code:

- The idempotency check is decided by the payment ids alone. Check and store are separate steps
  and SET NX reports a duplicate as success, so two payments that share their first eight
  characters and reach the same attempt in the same second are either submitted under one trace
  number (`DoubleSubmissionWithoutDistinctPrefixes`) or, if one stores before the other checks,
  the later one is stuck (`HitWithoutDistinctPrefixes`, `HitIsFinal`). No run has a hit if and only if
  the prefixes are distinct (`NoHitIffDistinctPrefixes`). A payment never hits its own key.
- After a hit the workflow skips the SUBMITTED write but still waits; whichever way the wait
  ends, the next transition is refused, the workflow fails and the payment stays PENDING.
- `UpdatePaymentState` gates on the copy of the state its caller read, and the UPDATE statement does
  not compare. A commit keeps the log a chain if and only if that copy was current
  (`CommitConsistentIffFresh`).
- The simulator refuses exactly the amounts of 10^10 cents and more: the entry keeps ten digits,
  the controls keep twelve (`CheckPassesIffAmountFits`, `ControlsBalance`).
- `GetPaymentByID` returns nil without an error for a missing row and
  `PersistStateTransition` dereferences it; the panic is modelled as a failed attempt.

Where the repository's documentation and its code disagree the model follows the code: only R09
waits 48 hours while R01, R08 and every other code wait 24 (internal/domain/rules.go:122-133);
the retry edge is RETURNED to PENDING (internal/domain/rules.go:82-90); a file-control record
flushes the open entry but does not end the file, and a file header does not even flush
(internal/nacha/parser.go:61-65, 107-112); the `default` branch of the workflow's switch
(internal/workflow/payment_workflow.go:253-264) cannot be reached, because routing knows three
categories only.

## Model

| member | source | states |
|---|---|---|
| PaymentWorkflow.Host.PaymentWorkflow | internal/workflow/payment_workflow.go:88-266 | the whole workflow, run in an arbitrary environment, stays in the reachable worlds of the step machine, terminates, and returns nil only with the payment in the terminal state that its settlement windows decide; otherwise its control state is the error state |
| PaymentWorkflow.Host.Submit | internal/workflow/payment_workflow.go:101-133 | trace number, check, and unless it hits store, SUBMITTED row and submission, in the only order the step machine allows, or an error |
| PaymentWorkflow.Host.AwaitReturn | internal/workflow/payment_workflow.go:135-152 | the select over a 72-hour timer and the signal channel: it ends with one signal taken or with the timer, or with an error if cancelled |
| PaymentWorkflow.Host.HandleReturn | internal/workflow/payment_workflow.go:167-264 | after a return the workflow goes round again only for a retryable code with representments left, with the count one higher; else it finishes or fails; the sleep in between is exactly the one of WorkflowSteps.SleepsExactly |
| PaymentWorkflow.Host.PersistTransition | internal/workflow/payment_workflow.go:298-313 | the activity call under its retry policy is a run of single attempts: success means the transition's next point, after the retry row a sleep until exactly 172800 seconds from now for R09 and 86400 for any other code; failure means the workflow fails |
| PaymentWorkflow.Host.CheckIdempotency | internal/workflow/payment_workflow.go:315-322 | the check under its retry policy: its answer decides between storing and opening the window |
| PaymentWorkflow.Host.Sleep | internal/workflow/payment_workflow.go:245-251 | the retry sleep ends no earlier than its time, with one more representment counted, unless cancelled |
| WorkflowRuns.DoKeeps | internal/workflow/payment_workflow.go:88-266 | every action (time, creation, start, signal, or a step of any workflow with any fault) keeps the world invariant: chain-shaped log, log tied to control state, windows, time stamps, queues, keys and submissions |
| WorkflowRuns.ReachInv | internal/workflow/payment_workflow.go:88-266 | the invariant holds in every world any interleaving of any number of workflows can reach |
| WorkflowSteps.SleepsExactly | internal/workflow/payment_workflow.go:235-247 | the retry sleep ends exactly 172800 seconds after the PENDING row for R09 and 86400 for every other code |
| WorkflowSteps.WaitsExactly | internal/workflow/payment_workflow.go:135-149 | an opened window waits until exactly 259200 seconds later, or takes the oldest queued signal at once |
| WorkflowSteps.WindowCloses | internal/workflow/payment_workflow.go:135-152 | a blocked window closes on a signal or on the timer, on either if both are ready, on an error if cancelled, and otherwise not |
| WorkflowSteps.SleepEnds | internal/workflow/payment_workflow.go:247-251 | a sleep ends at its time and not before, with one more representment counted |
| WorkflowSteps.AttemptIsStamped | internal/workflow/payment_workflow.go:103 | each turn of the loop takes a trace of "ACH-", the prefix, "-r", the representment count, "-" and the second of the moment, in this order |
| WorkflowSteps.CheckAnswers | internal/workflow/payment_workflow.go:105-110 | a hit is a live key "ach:trace:" plus the trace, and decides between waiting and storing |
| WorkflowSteps.EffectsOnce | internal/workflow/payment_workflow.go:110-126 | only the store writes Redis (a new key lives 604800 seconds) and only the submission writes the gateway, once per attempt that takes effect |
| WorkflowSteps.FailedAttempt | internal/workflow/payment_workflow.go:55-68 | an attempt that fails before its effect changes no store, and the last one allowed fails the workflow |
| WorkflowSteps.WritesOneRow | internal/workflow/payment_workflow.go:93-258 | a transition that is carried out appends one audit row from the stored state to the point's target, stamped now, and stores state and time; any other attempt leaves the database as it was |
| WorkflowSteps.ReturnLeadsTo | internal/workflow/payment_workflow.go:181-251 | after RETURNED: R01, R08, R09 lead to a retry or to exhaustion, R05, R14, R15, R16 to compliance escalation, every other code to a plain failure |
| WorkflowSteps.CounterIsTimers | internal/workflow/payment_workflow.go:135-247 | the hours counted in the control state are the sum of the timers started in the run, to the second |
| WorkflowTheorems.KeyMeansCollision | internal/workflow/payment_workflow.go:102-124 | if the key a workflow is about to check exists, another payment with the same eight-character prefix generated its trace at the same attempt number in the same second |
| WorkflowTheorems.NoHit | internal/workflow/payment_workflow.go:102-124 | with pairwise distinct prefixes, at no moment of any run is there a hit, nor even a key to be found |
| WorkflowTheorems.SubmittedAfterStored | internal/workflow/payment_workflow.go:110-126 | every line at the gateway carries the trace of one attempt of its payment, that trace is in Redis, and the SUBMITTED row of that very attempt is in the log |
| WorkflowTheorems.TraceIdentifiesAttempt | internal/workflow/payment_workflow.go:354-360 | with distinct prefixes two submissions with the same trace are the same attempt of the same payment (a retried activity), so traces are distinct across payments and attempts |
| WorkflowTheorems.LogIsCycle | internal/workflow/payment_workflow.go:88-266 | in every run the audit log of a started payment is PENDING, SUBMITTED, RETURNED over and over, with at most one terminal row, the last |
| WorkflowTheorems.CompletedMeansDecided | internal/workflow/payment_workflow.go:151-264 | a workflow that returned nil leaves a terminal stored state, the one computed from its windows, and had no hit |
| WorkflowTheorems.AfterHit | internal/workflow/payment_workflow.go:127-133 | after a hit the payment is PENDING, its log stopped at a PENDING row, this attempt was not submitted, and a colliding payment exists |
| WorkflowTheorems.HitIsFinal | internal/workflow/payment_workflow.go:127-179 | however the run goes on after a hit, the payment stays PENDING, is never submitted again and the workflow never returns nil |
| WorkflowTheorems.ClosedForGood | internal/workflow/payment_workflow.go:151-265 | once settled, failed, hit or returned with a code that is not retried, a payment's list of submissions never changes again in any continuation |
| WorkflowTheorems.RefusedReturnIsFinal | internal/workflow/payment_workflow.go:181-213 | a window that did not bring a retryable return (a non-retryable, compliance or unknown code, or silence) is never followed by another submission |
| WorkflowBounds.VerdictCharacterized | internal/workflow/payment_workflow.go:151-265 | the outcome of a list of windows, both ways: exhausted iff the first N+1 windows are all retryable returns; any other state iff at most N retried returns precede a window that leads to it |
| WorkflowBounds.FinalState | internal/workflow/payment_workflow.go:151-265 | of a finished workflow: exhausted iff N+1 signals were consumed and all were retryable; settled, failed or escalated iff its last window says so, after retried returns only |
| WorkflowBounds.RunBounds | internal/domain/rules.go:15-41 | at every moment of every run at most N returns to PENDING, N+1 distinct traces submitted, 3N+4 audit rows, and 3600(72(N+1)+48N) seconds of timers, summed over the timers the run actually starts |
| WorkflowBounds.CodeBounds | internal/domain/rules.go:15-41 | with the code's limit: at most three traces, ten audit rows and 1123200 seconds (312 hours) of timers started |
| WorkflowBounds.AttemptsArePaced | internal/workflow/payment_workflow.go:135-143 | attempts are at least 24 hours apart, each by at least the delay of the code between them, and settled_at is at least 72 hours after the last attempt |
| WorkflowBounds.SignalsAreFifo | internal/workflow/payment_workflow.go:135-149 | the i-th window that receives, receives the i-th delivered signal; what is not consumed is still queued, in order; a window settles only if no unconsumed signal had been delivered when it opened |
| WorkflowBounds.RequestsAreGranted | internal/workflow/payment_workflow.go:93-258 | without a hit the stored state at a request is the FromState passed, with an allowed edge, or already the ToState after a lost acknowledgement; after a hit every request is refused |
| WorkflowProof.StateAtRequest | internal/workflow/payment_workflow.go:93-258 | the same for one workflow, with the exact log each case goes with |
| WorkflowProof.RequestsAreEdges | internal/workflow/payment_workflow.go:93-258 | the workflow never asks for a transition the table refuses |
| WorkflowProgress.RunsEnd | internal/workflow/payment_workflow.go:100-265 | termination in numbers: after any beginning, under any faults, a workflow moves at most (13N + 12)(M + 1) + M more times, with M attempts per activity call |
| WorkflowProgress.MovesAreBounded | internal/workflow/payment_workflow.go:100-265 | termination: in a run of any length under any faults a workflow moves at most as often as its rank, which is lexicographic in representments left, point of the loop and attempts left |
| WorkflowProgress.FaultFreeRun | internal/workflow/payment_workflow.go:88-266 | without faults or cancellation, and with distinct prefixes, no interleaving makes a workflow fail |
| WorkflowProgress.CanComplete | internal/workflow/payment_workflow.go:88-266 | from every reachable world with distinct prefixes, every workflow that has not failed can still return nil |
| WorkflowCollision.NoHitIffDistinctPrefixes | internal/workflow/payment_workflow.go:102-124 | for any set of payments: no run of them meets a hit if and only if their prefixes are pairwise distinct |
| WorkflowCollision.HitWithoutDistinctPrefixes | internal/workflow/payment_workflow.go:356-360 | for any two payments with the same prefix, a run in which the second gets a hit |
| WorkflowCollision.DoubleSubmissionWithoutDistinctPrefixes | internal/redis/client.go:70-82 | for any two payments with the same prefix, a run in which both are submitted under one trace number, check and SET NX notwithstanding |
| Workflow.ExecConcat | internal/workflow/payment_workflow.go:88-266 | a run followed by a run is one run |
| TraceNumbers.TraceInjective | internal/workflow/payment_workflow.go:356-360 | the generated text determines prefix, representment count and time, although its decimals have no fixed width |
| TraceNumbers.TraceByPosition | internal/workflow/payment_workflow.go:356-360 | where prefix, representment count and second stand in the text, both as decimals without leading zeros |
| Redis.TraceKeyInjective | internal/redis/client.go:51-54 | different trace numbers have different keys |
| RedisClient.Client.CheckIdempotency | internal/redis/client.go:56-68 | reports a duplicate iff the key is there and has not expired, and a transient failure iff the attempt failed |
| RedisClient.Client.StoreTraceNumber | internal/redis/client.go:70-82 | SET NX with a seven-day expiry: a live key is left as it is and that is a success; a lost reply still stores |
| Store.PersistExactlyOnce | internal/activities/activities.go:99-129 | over any serial attempts with any faults, the database after the call is exactly one commit later, at the time of the first attempt that takes effect, if there is one, the state differs and the edge is allowed, and unchanged otherwise; success is reported iff some attempt reports and the request was not refused |
| Store.UpdateKeepsConsistent | internal/db/repository.go:149-232 | an update from a freshly read payment keeps, for every payment: the log is a chain of allowed edges from INITIATED, replaying it gives the stored state, updated_at is the time of the last row (creation if none), settled_at and failed_at are that time in their states and empty otherwise; created_at never changes |
| Store.CommitConsistentIffFresh | internal/db/repository.go:155-213 | a commit that passes the gate keeps the database consistent if and only if the copy of the state the caller holds is the stored one |
| Store.CreateKeepsConsistent | internal/db/repository.go:81-131 | inserting a new payment keeps the database consistent, also when its reply is lost or its id is taken |
| Store.LogExplainsState | internal/db/repository.go:338-388 | the log alone determines state, updated_at, settled_at and failed_at; a payment with settled_at or failed_at can never move, and none has both |
| Repository.Repository.UpdatePaymentState | internal/db/repository.go:149-232 | row and audit entry together or neither, each column spelled out: the new state, updated_at now, settled_at or failed_at now or as before, created_at as before, every other row untouched; the struct follows only a reported commit; from a fresh struct the database stays consistent |
| Repository.Repository.CreatePayment | internal/db/repository.go:81-131 | the insert as one atomic step: id and both times are set on the struct, an existing id is an error that changes nothing |
| Repository.Repository.GetPaymentByID | internal/db/repository.go:275-332 | the stored row, or nil without an error when there is none |
| Activities.Activities.PersistStateTransition | internal/activities/activities.go:99-129 | one attempt reads, skips if already there, else updates from the state just read; FromState plays no part; consistency is kept |
| Activities.Activities.CheckIdempotency | internal/activities/activities.go:150-159 | AlreadySubmitted iff a live key exists, an error iff the attempt failed |
| Activities.Activities.StoreTraceNumber | internal/activities/activities.go:173-182 | the key is stored unless the attempt failed before its effect, and success is reported iff it was not lost |
| Activities.Activities.SubmitToACH | internal/activities/activities.go:68-84 | one line at the gateway per attempt that takes effect, so a lost acknowledgement submits the same trace again |
| Rules.PathConservation | internal/domain/rules.go:67-95 | on any path of the state machine PENDING is entered zero or one times more often than SUBMITTED, and SUBMITTED zero or one times more often than RETURNED; while the path can still move, one more exactly when it is the current state |
| Rules.TerminalIsLast | internal/domain/rules.go:89-113 | a terminal state can only be the last state of a path |
| Rules.TerminalStates | internal/domain/payment.go:105-112 | terminal are SETTLED and the three failure states, and none of them has a way out |
| Rules.EdgesByName | internal/domain/rules.go:67-105 | the nine allowed transitions by name, and no other |
| Rules.RetryDelayFor | internal/domain/rules.go:115-133 | 48 hours for R09, 24 for every other code |
| RCodes.BuildMap | internal/domain/rcode.go:259-266 | the loop fills a map that knows exactly the codes of the table |
| RCodes.RoutingMatchesTable | internal/domain/rcode.go:279-285 | a code is retried or escalated iff the table lists it so, and every other code, the empty one included, is not retried |
| RCodes.RoutedByName | internal/domain/rcode.go:52-285 | exactly R01, R08, R09 are retried and R05, R14, R15, R16 escalated; known are R01 to R33 and nothing else |
| Parser.ParseFile | internal/nacha/parser.go:40-125 | the loop refines a declarative reading, stated by columns in ParserColumns: one entry per entry detail in file order with the code of its addenda or "", or a rejection that names the first line that makes the file unacceptable |
| ParserColumns.ParsedIff | internal/nacha/parser.go:40-210 | a file is accepted iff every line of 94 or more characters has type 1, 5, 6, 7, 8 or 9, a type 1 line has "01" in columns 2-3, a type 6 line a number in columns 30-39, a type 7 line "99" in columns 2-3 and no blank at the ends of columns 4-6, and every type 7 line follows a type 6 line with only short or type 1 lines between |
| ParserColumns.EntriesByColumn | internal/nacha/parser.go:40-210 | then there is one entry for each type 6 line, in order, with routing, account, amount and trace stripped from columns 4-12, 13-29, 30-39 and 80-94 of that line and the code from columns 4-6 of its addenda, or "" |
| ParserColumns.OtherAddendaRejected | internal/nacha/parser.go:195-201 | a type 7 line with anything but "99" in columns 2-3 makes the whole file a rejection |
| ParserColumns.AddendaColumns | internal/nacha/parser.go:190-210 | an addenda line yields columns 4-6 as they stand iff its type is 99 and neither end of the three is blank |
| ParserColumns.DetailColumns | internal/nacha/parser.go:153-180 | an entry detail yields exactly the stripped columns and the number the amount columns denote |
| Decimal.ScanIff | internal/nacha/parser.go:165-169 | the amount is read iff its text starts with an optional sign and a digit, up to the first non-digit |
| Decimal.ScanOfFormat | internal/nacha/parser.go:165-169 | reading undoes printing for every integer |
| Text.TrimIff | internal/nacha/parser.go:159-172 | trimming gives the one text without white space at its ends that only white space surrounds |
| Text.LinesOfPiece | internal/nacha/parser.go:41-48 | a piece without a line feed is one line, less the carriage returns at its end |
| Parser.LoopMirrors | internal/nacha/parser.go:46-122 | after any number of lines, the entries so far plus the pending one are the declarative entries of those lines, and an entry is pending iff the last relevant record opened one |
| Parser.PositionsComplete | internal/nacha/parser.go:76-86 | the declarative reading visits every entry detail exactly once and in order |
| Parser.StopsAtFirst | internal/nacha/parser.go:61-116 | the reported line is the first at which the file stops being acceptable |
| ParserLaws.LineEndingsDoNotMatter | internal/nacha/parser.go:41-48 | replacing every line feed by CR LF changes nothing, not even a line number, whatever stray CRs there are |
| ParserLaws.OnlyRecordsMatter | internal/nacha/parser.go:49-56 | files with the same lines of 94 or more characters parse alike |
| ParserLaws.ShortLinesInsertable | internal/nacha/parser.go:49-56 | short lines may be inserted at any line boundary, also between an entry and its addenda |
| ParserLaws.TrailingFillerIgnored | internal/nacha/parser.go:107-122 | filler lines, short or type 9, after any content change nothing |
| ParserLaws.ParseConcat | internal/nacha/parser.go:40-125 | parsing is a homomorphism over files joined at a line feed when the first leaves no entry open, with errors in order and at their place |
| Text.DosLinesSameLines | internal/nacha/parser.go:41-48 | CR LF and LF texts have the same trimmed lines |
| Text.LinesAtNewline | internal/nacha/parser.go:41-48 | the lines of two texts joined at a line feed are the lines of the two |
| Generator.HashRouting | internal/nacha/generator.go:140-148 | the loop computes the value of the routing digits modulo 10^10 |
| Generator.GenerateReturnFile | internal/nacha/generator.go:13-118 | the builder's text is 570 characters, six lines and six line feeds, with every column of all six records as documented (see Generator.FileInColumns) |
| Generator.FileInColumns | internal/nacha/generator.go:25-118 | every column of the text: ids, creation date before creation time, names, class code, dates, routing, account, amount, traces, code, counts, hash and totals, each at its place, cut or filled on the side its field calls for |
| Generator.BodiesFit | internal/nacha/generator.go:29-118 | no record body exceeds 94 characters, so the outer padding never truncates, for any routing, account, amount, trace and code |
| Generator.AmountField | internal/nacha/generator.go:129-138 | a non-negative amount printed into w columns reads back as the amount modulo 10^w |
| Generator.EntryLayout | internal/nacha/generator.go:62-75 | where routing, account, amount and trace lie in the entry detail |
| Generator.AddendaLayout | internal/nacha/generator.go:77-87 | where type, code and trace lie in the addenda |
| Generator.ControlTotals | internal/nacha/generator.go:89-118 | for every non-negative amount both debit totals read as the amount modulo 10^12 and both entry hashes are ten digits with the value of the first eight routing digits |
| Generator.ControlsBalance | internal/nacha/generator.go:61-118 | the control total equals the entry amount iff the amount modulo 10^12 is below 10^10 |
| RoundTrip.GeneratedFileParses | internal/nacha/parser.go:40-125 | parsing a generated file gives one entry with all five fields as sent, the amount modulo 10^10 |
| RoundTrip.FileThenRest | internal/nacha/parser.go:40-125 | a generated file in front of any text that parses adds its entry in front |
| RoundTrip.BatchRoundTrip | internal/nacha/generator.go:13-118 | the files of any list of valid returns, one after another, parse into exactly that list iff every amount is below 10^10 |
| Simulator.SequenceDigits | internal/simulator/return_simulator.go:125-140 | both loops end with exactly the first seven digits of the id by position, or, if it has fewer, the last seven digits of the clock |
| Simulator.OdfiDigits | internal/simulator/return_simulator.go:142-148 | the first eight characters of the routing number, or all of a shorter one behind zeros |
| Simulator.BuildTraceNumber | internal/simulator/return_simulator.go:124-150 | exactly fifteen characters, the routing part followed by the sequence part, each as stated above, and all digits if the routing is, so no padding of the trace is ever needed |
| Simulator.CheckPassesIffAmountFits | internal/simulator/return_simulator.go:53-70 | for every request postReturn accepts, the check passes iff the amount is below 10^10, else it reports the amount; when it passes all five fields came back |
| Simulator.ReturnSimulator.SimulateReturn | internal/simulator/return_simulator.go:36-85 | one signal with the given code and a trace of that form after a passed check, no call at all after a failed one; each failure is reported iff the file printed and read back shows it; for accepted requests the only reason is an amount of 10^10 or more |
| Simulator.ReturnSimulator.SimulateReturnFromFile | internal/simulator/return_simulator.go:90-120 | nothing on a parse error; otherwise exactly the longest prefix of the file-order list of known traces whose calls are accepted, all of it iff none fails |
| Simulator.RequestsByPosition | internal/simulator/return_simulator.go:101-118 | the requested signals are exactly the entries of known traces, each once, in file order, to the mapped payment and with the code the file gives, the empty one included |
| ReturnFiles.DeliveriesArrive | internal/simulator/return_simulator.go:101-118 | sent signals reach each running workflow's queue in order, behind what it had, and move no workflow |
| ReturnFiles.BatchReachesQueues | internal/simulator/return_simulator.go:90-120 | end to end: from a batch of returns through text, parser and signals, each workflow receives exactly the returns of its traces, in batch order, with their codes |
| ReturnFiles.NoAddendaIsNotRetried | internal/domain/rcode.go:279-285 | an entry without an addenda has code "" and is therefore never retried |

## Left out

- Activities.Activities.PersistStateTransition: the attempts of one call are serial. A timed-out attempt that is still running after a later one has succeeded is not modelled; `CommitConsistentIffFresh` says when such a commit would break the log.
- Activities.Activities.SubmitToACH: amount, account and routing number are not part of the recorded line, because the source only logs them; the representment number is recorded instead, to tell attempts apart.
- PaymentWorkflow.Host.PaymentWorkflow: `NotifyWebhook` and `fireWebhook` are not modelled; they are detached and touch no payment state. The body of the `for` loop is split over `Submit`, `AwaitReturn` and `HandleReturn`, and the unreachable `default` case of the switch has no counterpart.
- PaymentWorkflow.Host.PersistTransition: the back-off between attempts is only "any amount of time", and an attempt limit of 0, which Temporal reads as no limit, is read as one attempt.
- PaymentWorkflow.Host.Sleep: cancellation is possible only while the workflow is blocked in the window or the sleep; during an activity call a cancellation looks like a failed last attempt.
- Workflow.ExecConcat: one clock serves database, Redis and Temporal; clock skew is not modelled. The fields `windows`, `stamps`, `seenAtOpen` and `timerHours` of a workflow's control state and `attempt` of a submission are history that no step reads to decide anything.
- WorkflowRuns.DoKeeps: a workflow is started at most once per payment (its id is the payment id); continuing as new, resets and Temporal's replay are not modelled.
- Repository.Repository.UpdatePaymentState: the transaction is one atomic step; connections, isolation levels and pool errors are the attempt's fault.
- Repository.Repository.CreatePayment: the columns that nothing in the model changes or reads (portfolio_id, amount, return_code, representment_count, trace_number) are left out.
- Store.LogExplainsState: the log is read in commit order; the reader's ORDER BY created_at is the same order only if the clock never steps back.
- Redis.TraceKeyInjective: expiry is a time stored with the key; eviction and loss of the Redis data are not modelled.
- ReturnFiles.DeliveriesArrive: a signal that is accepted by the server although its caller sees an error is not modelled, nor is a signal to a finished workflow beyond its being dropped.
- Parser.ParseFile: text is ASCII; Unicode white space and multi-byte characters are not modelled. Amounts come from ten columns at most, so the 64-bit range is never left.
- Generator.GenerateReturnFile: dates and times are arbitrary digit strings of the right width, and routing numbers of fewer than nine characters, on which the source panics, are excluded.
- Generator.HashRouting: routing texts of at most 18 characters, so that the source's 64-bit sum cannot wrap; its only caller passes eight.
- Simulator.SequenceDigits: the clock is assumed to have at least seven digits of nanoseconds, which holds since the first thousandth of a second of 1970.
- RCodes.RoutingMatchesTable: descriptions are left out, as they only feed log and audit text; so are `AllRCodeDefinitions`, audit reasons and log lines.
- HTTP handlers, JSON, the dashboard, health checks, `InsertReturnEvent`, `GetAllPayments`, `activities.GenerateTraceNumber` and `last4`: plumbing off the modelled path; the checks of postReturn (internal/api/handlers.go:274-289) appear as `ValidRequest`.
- The constants `ACHSettlementWindow` and `ReturnDeadline` (internal/domain/rules.go:49-56): no code reads them, the workflow waits 72 hours.
