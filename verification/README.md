# A model of the Coda node runtime

This project models the parts of the node runtime in which something can go
wrong quietly, and proves what they keep in every run:

- **The job consumer.** `Consumer` is `RedisConsumer` as a step machine with one
  program counter per `await`. Between any two steps the cloud may raise a
  cancel flag or append a message, a Redis call may be lost (before or after the
  server carried it out), the executor may return or raise, the callback may
  answer or not, `drain` may start, resume or time out, the consumer task may be
  cancelled, and the process may die and start again. `Effects` says what one
  step does to the world; `Ledger`, `Justification`, `Flight`, `Safety`,
  `Cancellation`, `CancelRecord`, `Outcomes`, `Routing`, `Outage`, `Poisoned`,
  `Recovery`, `Leftover`, `Forgotten`, `Cancels`, `Checks`, `Resends`,
  `Deliveries`, `Incomplete`, `DrainAnswers`, `AfterDrain`, `AfterDrainStarts`,
  `Stopping` and `Forcing` prove properties of all runs of that machine; `Witness` holds concrete runs from
  a fresh start in which something goes wrong.
- **Batches.** `Serving` says what serving messages one by one should do to job
  states, pending list and reports, and what a batch does to them; `BatchLaws`
  proves when the two agree. `Quiet`, `QuietSteps`, `QuietRuns` and
  `QuietProgress` prove that the machine, in any interleaving of polling,
  executor, gathering and deliveries, does what `Serving` says when Redis
  answers, POSTs are accepted and flags stand still, and that such a run can
  always be completed. `Worker` is the same healthy path as an object whose
  methods update its fields and loop over lists.
- **The retry loops** (`Webhook`, `Retry`).
- **OpenQASM text** (`Text`, `Numbers`, `Ir`, `Qasm`, `QasmLines`, `QasmLaws`,
  `QasmErrors`, `QasmRoundTrip`, `Patterns`, `Recognised`, `Meaning`, `Reading`,
  `Programs`, `Spellings`, `Literals`, `Samples`): the recognisers, the parser and
  the printer character by character, with Python's `strip`, `splitlines`, `float`
  and `.15g`. `Patterns` gives the regular expressions as data with their
  declarative meaning, and `Programs.ParseMeans` states which texts are accepted,
  and as what, without the parser. A floating-point type is a record of functions:
  rounding to fifteen digits and the nearest value of a literal stay abstract. Two
  laws of doubles appear as hypotheses: fifteen significant digits survive a trip
  through a double unless they overflow (`Numbers.FifteenDigits`), and the literal
  printed for -pi/2 reads back close to it (`HalfPiSurvives`).
- **The VPN guard** (`Guard`) and **the credential lifecycle** (`Lifecycle`,
  `Restarts`).

`dafny verify dfyconfig.toml` checks everything.

Some facts of the code the theorems name rather than hide:

- `finally` acknowledges a message also when its task was cancelled from outside
  or when the flag read in the error handler failed (`Justification.Justified`
  lists both).
- A stored delivery that raised is never cleared, so the worker dispatches
  nothing until it is restarted (`Poisoned.RaisedDeliveryStopsDispatch`), and
  raising reports idle while other deliveries go on
  (`Poisoned.RaisingReportsIdleTooEarly`). That is the only way in which an idle
  node is not quiet: `Flight.IdleMeansQuiet` is an equivalence over every run,
  forced cancellations and earlier raised deliveries included.
- The module documentation promises an acknowledgement whatever the outcome. A
  connection error before the `try` of `_process_message` leaves the message
  pending (`Witness.LostReadLeavesPending`), and nothing else does
  (`Leftover.AckedUnlessReadLost`); in triage one lost read leaves the rest of the
  batch pending, the messages already kept included
  (`Leftover.LostTriageReadLeavesRest`).
- A fallback in which no message reaches its `executing` write leaves the idle
  flag clear although nothing is under way (`Witness.IdleForgotten`,
  `Forgotten.FallbackIdleExactly`).
- `drain` documents that it waits and then stops; after it has answered True the
  loop may start the executor once more (`Witness.StartsAfterDrain`), exactly
  where `AfterDrainStarts.StartsAfterDrainExactly` says.
- The 1025th failed read in a row overflows the delay and ends the consume loop
  (`Outage.OutageLimit`).
- In batch triage a message that does not parse is acknowledged with no report,
  while the one-by-one path reports a failure
  (`BatchLaws.UnparsableIsSilentInBatch`); `BatchLaws.BatchAgreesExactly` has the
  condition under which the two paths agree, for every batch.
- The documentation of `openqasm_to_ir` promises `QASMConversionError` for
  unsupported text; errors of `float` and of the gate shape leave it unwrapped,
  for `cz q[0];` for example (`QasmErrors.MissingOperandIsUnwrapped`), and in
  exactly the cases `QasmErrors.UnwrappedExactly` lists.
- A crash between the two persist writes leaves the new key beside the old key
  id (`Restarts.InterruptionSplitsThePair`).

## Model

| member | source | states |
|---|---|---|
| `Effects.WorldStep` | src/coda_node/server/consumer.py:170-235 | Any step of any coroutine or of the environment changes Redis, the acknowledgements and the POSTs by exactly one call, and otherwise only adds to the history |
| `Effects.MainStep` | src/coda_node/server/consumer.py:525-625 | After a step the consume loop is where the answer to its call leads, at the entry of a message, where it was, or thrown into `finally` by a cancellation that is on record |
| `Ledger.BalancedStep` | src/coda_node/server/consumer.py:189-219 | Every step keeps the ledger: the pending list ascends, lies below the cursor, and together with the acknowledged ids covers exactly what was delivered; everything held was delivered |
| `Ledger.Conservation` | src/coda_node/server/consumer.py:137-219 | In every run with crashes and lost calls, each message ever appended is in exactly one of undelivered, pending, acknowledged |
| `Ledger.ReadTakes` | src/coda_node/server/consumer.py:191-197 | An answered read moves the next hundred undelivered messages, or the next one without batch support, or as many as there are, in order, from undelivered to pending |
| `Justification.AcksAreJustified` | src/coda_node/server/consumer.py:381-625 | Every acknowledged message lacked a field, was seen terminal, had its flag read as raised while being handled, had an outcome POST attempted or was found unparsable in triage, unless its task was cancelled or its handler could not read the flag |
| `Justification.FrameStep` | src/coda_node/server/consumer.py:536-625 | The reason for each acknowledgement is established by the answer that leads `_process_message` to it |
| `Incomplete.IncompleteIsOnlyAcknowledged` | src/coda_node/server/consumer.py:381-395 | In every run nothing is posted or executed for a message that lacks its job or its callback, and a processing or triage of one only acknowledges it |
| `Flight.SingleFlight` | src/coda_node/server/consumer.py:337-367 | In every run at most one executor call is neither finished nor cancelled, and then the loop is still waiting for it |
| `Flight.ResultsAreChecked` | src/coda_node/server/consumer.py:339-348 | A result is returned only after the run task returned it and an answered flag read found no flag |
| `Cancels.FoundFlagIsObeyed` | src/coda_node/server/consumer.py:344-364 | In every run, once a flag read of a processing found the flag, that processing is never again waiting for the executor, checking or recording a result, or sending anything |
| `Cancels.FoundFlagCancelsTheCall` | src/coda_node/server/consumer.py:350-354 | In every run, when a poll finds the flag, the executor call is cancelled by the second step of the loop from there, whether or not the executor ends, and stays so |
| `Cancels.CancelledCallIsAwaited` | src/coda_node/server/consumer.py:352-364 | In every run a processing that cancelled its call goes no further before that call has ended |
| `Cancels.CancelledJobEnds` | src/coda_node/server/consumer.py:350-364 | In every run, from a poll with the flag up, the job ends `cancelled` and acknowledged with nothing posted and the node idle, in six steps once the executor ends in whatever way |
| `Checks.ReportsAreChecked` | src/coda_node/server/consumer.py:344-596 | In every run a processing has, since its executor returned, found the flag down twice before it writes `completed` and three times before it sends the result |
| `Flight.IdleMeansQuiet` | src/coda_node/server/consumer.py:420-523 | At every moment of every run at which the idle flag is set: there is no current job, no live executor call and no active delivery, if and only if no delivery is left over from a batch whose delivery task raised |
| `Flight.DrainIsSound` | src/coda_node/server/consumer.py:241-259 | In every run: drain finds the node idle with nothing in flight unless such leftovers remain, and it answers True only with nothing in flight or once the delivery it went on to wait for has finished |
| `DrainAnswers.FalseMeansTimeout` | src/coda_node/server/consumer.py:241-259 | In every run drain has answered False if and only if its timeout expired while it was waiting |
| `DrainAnswers.DrainAnswersInTime` | src/coda_node/server/consumer.py:252-257 | A waiting drain answers True exactly when the node was idle and the stored delivery is gone or ended well, raises exactly when the delivery did, otherwise waits on, and changes nothing else |
| `DrainAnswers.LoopAnswersDrain` | src/coda_node/server/consumer.py:201-203 | If the consume loop is first to find the delivery ended well, the waiting drain answers True too |
| `DrainAnswers.DrainCancelsNoDelivery` | src/coda_node/server/consumer.py:254-259 | In every run the delivery drain waits for has already ended, so its second timeout changes nothing but the answer |
| `Flight.IdleFitsStep` | src/coda_node/server/consumer.py:560-625 | Every step keeps: work or an outstanding delivery means the idle flag is clear, and with a stored delivery the loop starts nothing |
| `Safety.NoReExecution` | src/coda_node/server/consumer.py:397-405 | Once a job is completed or cancelled and the loop is not working on it, no redelivery, recovery, restart or batch starts the executor for it in any continuation |
| `Safety.SettledStep` | src/coda_node/server/consumer.py:550-558 | Every step keeps a finished job finished and out of every place that could start it |
| `Cancellation.CancelSafety` | src/coda_node/server/consumer.py:550-621 | If the flag is up while no webhook for the job is under way, no webhook of either kind is ever posted for it again, by any path, after any crash |
| `CancelRecord.CancelSafetyIsExact` | src/coda_node/server/consumer.py:576-621 | With the flag up, no continuation posts for the job if and only if no processing or delivery of it has passed its last check |
| `CancelRecord.CancelledIsRecorded` | src/coda_node/server/consumer.py:598-608 | With the flag raised before the last check, every processing of the job, alone, in batch triage or in a delivery, that reaches its normal acknowledgement wrote `cancelled` last |
| `CancelRecord.ChildRecords` | src/coda_node/server/consumer.py:468-498 | The same for one step of a batch delivery |
| `Outcomes.AtMostOneOutcome` | src/coda_node/server/consumer.py:579-621 | Across all retries a processing has at most one POST acknowledged, and the last status it tried to write is the one it reported |
| `Outcomes.NumberedStep` | src/coda_node/server/consumer.py:500-523 | Every processing and delivery under way has a number below the next fresh one, and no two deliveries share one, so outcomes can be told apart |
| `Resends.RetriesExactly` | src/coda_node/server/webhook.py:98-137 | In every run, for results, errors and deliveries alike: a POST answered neither with success nor with a refusal is followed by the same outcome from the same processing unless it was the third, and any other is not |
| `Resends.AtMostThreeSends` | src/coda_node/server/webhook.py:98-157 | In every run no processing sends more than three results and three errors |
| `Routing.ResultsAreRouted` | src/coda_node/server/consumer.py:416-516 | Every completed POST carries the result the executor returned at the position of that message's own circuit and shots, whatever was dropped from the batch |
| `Routing.MismatchDeliversNothing` | src/coda_node/server/consumer.py:500-516 | If the number of results differs, no delivery of that batch writes, posts or acknowledges |
| `Deliveries.DeliveriesEndExactly` | src/coda_node/server/consumer.py:460-498 | In every run, however its POSTs are answered, a delivery is finished exactly when it attempted its XACK and has raised exactly when one of its flag reads was lost |
| `Deliveries.DeliveriesProgress` | src/coda_node/server/consumer.py:460-498 | Answered calls bring every delivery nearer to its XACK |
| `Deliveries.RaisesExactly` | src/coda_node/server/consumer.py:503-516 | In every run a stored delivery has raised a connection error exactly when the number of results was right, and then one of its parts has raised |
| `Outage.OutageWaits` | src/coda_node/server/consumer.py:187-232 | At every moment of every run the failures counted are the connection errors caught since the last answered read, empty or not, or the last start; health holds iff there are none, and the outage slept 2^k - 1 seconds for k up to 6 and 63 + 60(k - 6) beyond |
| `Outage.OutageLimit` | src/coda_node/server/consumer.py:220-232 | The loop outlives n failed reads in a row if and only if n is at most 1024 |
| `Outage.StartupErrorsEndTheLoop` | src/coda_node/server/consumer.py:183-185 | A connection error during set-up or the startup recovery ends the loop and counts no failure |
| `Poisoned.RaisedDeliveryStopsDispatch` | src/coda_node/server/consumer.py:201-203 | After a delivery raised, no continuation without a restart dispatches a message or starts the executor |
| `Poisoned.JoinRaisesAgain` | src/coda_node/server/consumer.py:201-235 | A raised delivery makes the loop sleep and read on, counting a failure only for a connection error, until 1024 of them; a cancelled one ends the loop |
| `Poisoned.RaisingReportsIdleTooEarly` | src/coda_node/server/consumer.py:503-521 | A run from a fresh start: one delivery of a batch of two loses its flag read, the delivery task raises and the idle flag is set while the other delivery is still to come |
| `Recovery.PassClears` | src/coda_node/server/consumer.py:148-168 | With Redis answering, a pass removes exactly the first hundred pending messages, whatever flags, executor and callback do, and returns their number |
| `Recovery.RecoveryProgress` | src/coda_node/server/consumer.py:148-168 | After k passes max(0, n - 100k) of n messages are pending and the returned counts add up to the rest |
| `Leftover.AckedUnlessReadLost` | src/coda_node/server/consumer.py:547-625 | In every run a processing that is left without crash or cancellation had its XACK attempted if and only if neither its status read nor its first flag read was lost, and took its message off the pending list if and only if that XACK landed |
| `Leftover.LostTriageReadLeavesRest` | src/coda_node/server/consumer.py:394-405 | In every run triage is left early if and only if a status or flag read is lost; then every message it has not acknowledged, kept ones included, stays pending and nothing is run |
| `Leftover.TriageAcksExactly` | src/coda_node/server/consumer.py:381-416 | Within a triage a message is dealt with exactly by an attempted XACK and leaves the pending list exactly by one that lands |
| `Witness.LostReadLeavesPending` | src/coda_node/server/consumer.py:550-553 | A run from a fresh start whose only message is left pending and unacknowledged by one lost status read |
| `Forgotten.FallbackIdleExactly` | src/coda_node/server/consumer.py:421-458 | In every run, whatever flags, Redis and callbacks do, a fallback leaves the idle flag set if and only if one of its messages got as far as its `executing` write |
| `Witness.IdleForgotten` | src/coda_node/server/consumer.py:442-458 | A run from a fresh start that is back at its read with no work, no delivery and the idle flag clear |
| `AfterDrainStarts.StartsAfterDrainExactly` | src/coda_node/server/consumer.py:241-259 | At every moment of every run after drain has answered True: some continuation without a restart starts the executor if and only if `MayStart` holds of the place of the loop, the messages it holds and the job states and flags in Redis |
| `AfterDrain.ShutStep` | src/coda_node/server/consumer.py:170-235 | Where `MayStart` does not hold, no step of any coroutine or of the environment starts the executor or makes it hold |
| `AfterDrainStarts.HelpExists` | src/coda_node/server/consumer.py:525-625 | Where it holds, some step starts the executor or brings the loop nearer to a start |
| `Stopping.StopEndsReading` | src/coda_node/server/consumer.py:237-239 | Once stop or drain has been called, no read for new messages begins but the one under way, until a restart |
| `Witness.StartsAfterDrain` | src/coda_node/server/app.py:136-142 | A run from a fresh start in which drain answers True while a read is under way and the executor is started afterwards |
| `Forcing.ForcedExactly` | src/coda_node/server/consumer.py:327-367 | A cancellation ends the loop with its next step unless it waits for a call it cancelled, where it is swallowed; the message is acknowledged and the node idle exactly if the loop was inside the `try` |
| `Forcing.ForcedDelivery` | src/coda_node/server/consumer.py:503-521 | In every run a cancellation at the join stops every part of the delivery; the idle flag is set if it had begun and stays clear if not |
| `BatchLaws.FallbackIsHarmless` | src/coda_node/server/consumer.py:442-458 | Triage and `executing` marks followed by serving every message equal serving every message, for any batch |
| `BatchLaws.BatchRefinesServing` | src/coda_node/server/consumer.py:369-523 | A batch that stays together and in which, of the live messages, exactly the first of each job parses ends with the same states, pending list and reports as serving it one by one |
| `BatchLaws.BatchAgreesExactly` | src/coda_node/server/consumer.py:369-523 | For every batch, parsable or not: it ends as serving its messages one by one does, if and only if it falls back or, of its live messages, exactly the first of each job parses |
| `BatchLaws.BatchAgreesExactlyWhenDistinct` | src/coda_node/server/consumer.py:369-523 | For messages that all parse the condition becomes: it falls back or no two live messages share a job |
| `BatchLaws.UnparsableIsSilentInBatch` | src/coda_node/server/consumer.py:407-415 | In a batch of several messages that stays together, the first live message of a job that does not parse is acknowledged with no report, wherever it stands; one by one it is reported as failed |
| `BatchLaws.UnparsableFirstDisagrees` | src/coda_node/server/consumer.py:407-415 | Two messages of two jobs, the first unparsable, for which batch and one-by-one differ |
| `QuietRuns.MachineServes` | src/coda_node/server/consumer.py:217-219 | Every quiet run of the one-by-one loop that comes to rest ends in `ServeAll` with the idle flag set |
| `QuietRuns.MachineServesRead` | src/coda_node/server/consumer.py:212-219 | Every completed quiet run after a read of one message, or of any read without batch support, ends in `ServeAll` |
| `QuietRuns.MachineServesBatch` | src/coda_node/server/consumer.py:369-523 | Every quiet run of a batch that comes to rest, in any interleaving of its deliveries or through its fallback, ends in `BatchServed` with the idle flag set |
| `QuietRuns.BatchMatchesOneByOne` | src/coda_node/server/consumer.py:369-625 | Any completed quiet batch run and any completed quiet one-by-one run over the same messages end with the same states, pending list and reports if and only if the batch fell back or, of its live messages, exactly the first of each job parses |
| `QuietRuns.FallbackLeavesNoTrace` | src/coda_node/server/consumer.py:421-458 | When `batch_run` is gone or raises, every completed quiet run ends as if the batch had never been tried, with the idle flag set |
| `QuietSteps.MessageHeads` | src/coda_node/server/consumer.py:525-625 | Each quiet step of `_process_message` keeps the book the whole run is heading for |
| `QuietSteps.ChildHeads` | src/coda_node/server/consumer.py:460-498 | Whichever delivery moves, the book the deliveries are heading for stays the same |
| `QuietProgress.BatchCompletes` | src/coda_node/server/consumer.py:369-523 | Every batch has a quiet run to rest, and it ends in `BatchServed` |
| `QuietProgress.QuietStepExists` | src/coda_node/server/consumer.py:446-523 | Short of rest some coroutine has a quiet step that brings the run closer |
| `Worker.RedisConsumer.ProcessMessage` | src/coda_node/server/consumer.py:525-625 | In place: the effect of one message is `Serve`; idle flag and current job end set and cleared exactly for a message that was run |
| `Worker.RedisConsumer.RecoverPending` | src/coda_node/server/consumer.py:137-168 | In place: serves the listed messages in order, removes exactly them from the pending list and returns how many |
| `Worker.RedisConsumer.TriageAll` | src/coda_node/server/consumer.py:381-416 | In place: the loop leaves `TriagedAll` and returns the kept messages in order |
| `Worker.RedisConsumer.ProcessBatch` | src/coda_node/server/consumer.py:369-458 | In place: either the batch is served and an idle node stays idle, or the idle flag is clear and delivering the returned messages will serve it |
| `Worker.RedisConsumer.DeliverBatch` | src/coda_node/server/consumer.py:500-523 | In place: deliveries finishing in any order leave `DeliveredAll` and the idle flag set |
| `Worker.RedisConsumer.HandleBatch` | src/coda_node/server/consumer.py:212-219 | In place: a whole batch is `BatchServed`, equal to serving one by one exactly under the condition of `BatchAgreesExactly`, and an idle node is idle again |
| `Worker.DeliverAny` | src/coda_node/server/consumer.py:504-517 | Delivering any one of the results first leads to the same book |
| `Retry.PostWithRetry` | src/coda_node/server/webhook.py:98-137 | The loop ends as the first answer below 500 decides or after all attempts, makes no attempt after it, waits 2^n - 1 seconds for n exhausted attempts, and returns without sending when no attempt is allowed |
| `Retry.PostConnect` | src/coda_node/vpn/service.py:324-363 | The same decision, with 2^(n-1) - 1 seconds of waiting for n attempts |
| `Retry.JudgeAgreesWithLoop` | src/coda_node/server/webhook.py:103-134 | The step rule of the consumer machine stops at the same attempt with the same result as the loop |
| `Numbers.FormatRoundTrip` | src/coda_node/server/qasm.py:54-63 | `float` reads back exactly the decimal that `.15g` wrote, in fixed and scientific notation, for zero, infinities and nan |
| `Numbers.CanonOfLayout` | src/coda_node/server/qasm.py:54-63 | The digits laid out around the point, with padding or an exponent, denote the number they came from |
| `Literals.LiteralsExactly` | src/coda_node/server/qasm.py:126-132 | Without underscores `float` reads exactly signed infinities, nans and decimals, with the value of their digits and exponent |
| `Literals.UnderscoresExactly` | src/coda_node/server/qasm.py:126-132 | `float` reads over underscores between two digits and reads no text with any other |
| `Literals.CanonKeepsValue` | src/coda_node/server/qasm.py:54-63 | The canonical form of a decimal has its value |
| `Literals.ScientificExactly` | src/coda_node/server/qasm.py:54-63 | Scientific notation is used exactly for exponents below -4 and from 15 on |
| `Literals.FixedSamples` | src/coda_node/server/qasm.py:54-63 | Numbers as fixed notation writes them |
| `Literals.ScientificSamples` | src/coda_node/server/qasm.py:54-63 | Numbers as scientific notation writes them |
| `Qasm.OpenqasmToIr` | src/coda_node/server/qasm.py:71-158 | The loop over the lines computes `Parse`, whose accepted texts and results `Programs.ParseMeans` states |
| `Programs.ParseMeans` | src/coda_node/server/qasm.py:71-158 | A text is accepted, and as this circuit, if and only if every line is a way of writing some statement and the circuit is what the statements describe: one register of 1 to 50 qubits, measurements and gates in order, every number in range, each gate by its name, operands and numbers |
| `Programs.GateIs` | src/coda_node/server/qasm.py:206-297 | A gate call is read as an operation exactly when the name table, the operands, the numbers and their counts say so |
| `Meaning.StatementIs` | src/coda_node/server/qasm.py:100-138 | The parser takes a line for a statement exactly when the line matches the pattern of that statement with its captures |
| `Meaning.LineSaysOneThing` | src/coda_node/server/qasm.py:100-138 | No line is a way of writing two statements |
| `Meaning.AtMostOneRecogniser` | src/coda_node/server/qasm.py:39-51 | No line whatever is accepted by two recognisers |
| `Patterns.GreedyIsExact` | src/coda_node/server/qasm.py:39-51 | A pattern in which no class runs into what follows is matched by one scan from left to right, in one way only |
| `Recognised.HeadersExactly` | src/coda_node/server/qasm.py:39 | The header recogniser accepts exactly the lines the pattern describes |
| `Recognised.IncludesExactly` | src/coda_node/server/qasm.py:40 | The same for includes |
| `Recognised.CommentsExactly` | src/coda_node/server/qasm.py:104 | A comment is any line that starts with two slashes |
| `Recognised.DeclarationsExactly` | src/coda_node/server/qasm.py:41-42 | The same for register declarations, with the number they declare |
| `Recognised.MeasurementsExactly` | src/coda_node/server/qasm.py:43 | The same for measurements, with the qubit measured |
| `Recognised.GateCallsExactly` | src/coda_node/server/qasm.py:44-51 | The same for gate calls of any number of operands, with name, arguments and operands |
| `Reading.SkippedLinesMeanNothing` | src/coda_node/server/qasm.py:100-108 | Inserting an empty line or a comment anywhere between, before or after the lines of any text leaves its meaning unchanged |
| `Reading.BlanksAndComments` | src/coda_node/server/qasm.py:101-104 | Such lines are blanks alone, or blanks, two slashes and anything |
| `Spellings.SpacedGateIsRead` | src/coda_node/server/qasm.py:44-51 | A gate call with any blanks after its name, around its commas and before its end, and anything after, is read as its printed form |
| `Spellings.SpacedMeasureIsRead` | src/coda_node/server/qasm.py:43 | A measurement with any blanks adds its qubit |
| `Spellings.SpacedPreambleIsRead` | src/coda_node/server/qasm.py:39-40 | Header and include with any blanks, version and file add nothing |
| `Spellings.SpacedDeclarationIsRead` | src/coda_node/server/qasm.py:41-42 | Declarations with any blanks and register name declare their number, qubits once |
| `QasmErrors.UnwrappedExactly` | src/coda_node/server/qasm.py:100-138 | An error that is no conversion error leaves the parser if and only if, with all lines before it read, some line is a gate call whose arguments are no floats or whose operand or parameter count does not fit its gate |
| `QasmErrors.LineRaises` | src/coda_node/server/qasm.py:126-138 | One line raises such an error exactly when it is a gate call so misshapen, whatever was read before |
| `QasmErrors.MissingOperandIsUnwrapped` | src/coda_node/server/qasm.py:126-138 | `cz q[0];` raises one, whatever the floats are like |
| `Qasm.IrToOpenqasm` | src/coda_node/server/qasm.py:166-198 | The loops over gates and measurements compute `Print`, or fail where a gate has no text |
| `Samples.PrintedLines` | src/coda_node/server/qasm.py:166-198 | A program with gates and measurements, printed line by line |
| `Samples.PrintedText` | src/coda_node/server/qasm.py:198 | A whole text: a newline after every line |
| `Samples.CzLines` | src/coda_node/server/qasm.py:323-350 | Each gate of the target cz as it is printed |
| `Samples.CnotLines` | src/coda_node/server/qasm.py:353-377 | Each gate of the target cnot as it is printed |
| `Samples.CharacterClasses` | src/coda_node/server/qasm.py:39-51 | The characters of each class, by their ASCII codes |
| `QasmLines.PlainMatches` | src/coda_node/server/qasm.py:44-51 | The gate pattern finds name and operand numbers in every printed line without parameters |
| `QasmLines.ParametrisedMatches` | src/coda_node/server/qasm.py:44-51 | The gate pattern finds name, argument text and operand numbers in every printed line with parameters |
| `QasmLines.GateLineOnly` | src/coda_node/server/qasm.py:39-51 | No other recogniser accepts a printed gate line |
| `QasmLines.MeasureIs` | src/coda_node/server/qasm.py:43-50 | A printed measurement is recognised with its qubit and is no gate |
| `QasmLaws.GateRoundTrip` | src/coda_node/server/qasm.py:206-377 | A printed gate is recognised as a gate line only and read back as itself, normalised, for both targets |
| `QasmLaws.PrintabilityIsExact` | src/coda_node/server/qasm.py:300-377 | Printing a valid circuit succeeds exactly when its target is cz, or cnot without rx, ry, rz, or it has no gates |
| `QasmRoundTrip.RoundTrip` | src/coda_node/server/qasm.py:71-198 | Parsing the printed text of any valid circuit that prints returns it with id durations zero and parameters rounded to fifteen digits |
| `QasmRoundTrip.LinesAreUnambiguous` | src/coda_node/server/qasm.py:100-138 | Every line of every printed program is accepted by exactly one recogniser |
| `QasmRoundTrip.ParsedPrints` | src/coda_node/server/qasm.py:126-158 | Whatever text is accepted for whatever target, the result is valid and prints |
| `QasmRoundTrip.NormalFormIsExact` | src/coda_node/server/qasm.py:54-198 | Printing what was read back gives the identical text if and only if every printed parameter keeps its fifteen digits |
| `QasmRoundTrip.NormalFormFailsOnlyByOverflow` | src/coda_node/server/qasm.py:54-63 | With the fifteen-digit law of doubles, the text is identical if and only if no printed parameter overflows when rounded |
| `QasmRoundTrip.ParseThenPrintIsIdempotent` | src/coda_node/server/qasm.py:100-198 | For every accepted text, parse-then-print succeeds and repeating it yields the identical text if and only if every printed parameter keeps its fifteen digits |
| `QasmRoundTrip.ParseThenPrintFailsOnlyByOverflow` | src/coda_node/server/qasm.py:54-198 | With the fifteen-digit law, that is if and only if no printed parameter overflows when rounded |
| `QasmLaws.NormIsValid` | src/coda_node/server/ir.py:88-168 | A trip through text keeps a circuit valid: shapes, legal gates and qubit ranges |
| `Samples.TargetsAreAlike` | src/coda_node/server/ir.py:40-85 | Every target has exactly one gate on two qubits, the three rotations with one angle each, and the identity |
| `Guard.VPNGuard.Preflight` | src/coda_node/vpn/guard.py:317-369 | A check passes iff VPN is not required or the tunnel, all hosts and all probes are good; the reason names exactly the hosts and probes that failed; the state is READY or VPN_UNAVAILABLE accordingly |
| `Guard.VPNGuard.WatchRound` | src/coda_node/vpn/guard.py:386-397 | One round keeps the state the history of checks determines and calls back exactly on a flip |
| `Guard.VPNGuard.Watch` | src/coda_node/vpn/guard.py:371-397 | After any rounds state and callbacks are the functions of the history of checks |
| `Guard.Monitor` | src/coda_node/vpn/guard.py:304-397 | One start-up check and any watch rounds: the history, the state and the callbacks it determines |
| `Guard.StateAgreesWithCallbacks` | src/coda_node/vpn/guard.py:385-397 | READY iff the last check passed, DEGRADED iff it failed right after a pass, else VPN_UNAVAILABLE; whether the guard is ready is determined by the first check and the last callback, and DEGRADED means the last callback said so |
| `Guard.CallbacksAlternate` | src/coda_node/vpn/guard.py:391-397 | Callbacks strictly alternate, start with the opposite of the first check and end with the last |
| `Guard.CallbacksCountFlips` | src/coda_node/vpn/guard.py:391-397 | There is one callback per pass/fail flip |
| `Lifecycle.LoadPersisted` | src/coda_node/server/config.py:74-116 | Of the configuration file exactly the listed settings are loaded with their values, and the key exactly when both files exist and it is not empty |
| `Lifecycle.MergePersisted` | src/coda_node/server/config.py:214-225 | Persisted values fill exactly what is missing, null, an empty string or an empty list in the environment |
| `Lifecycle.FreshSettings` | src/coda_node/server/config.py:165-197 | The settings a first start with nothing but a token is built from |
| `Lifecycle.Settings.ApplyNodeBundle` | src/coda_node/vpn/service.py:465-557 | Succeeds iff the bundle is acceptable for the credentials held; afterwards both credentials are non-empty, replaced only by non-empty ones, and every other setting is what the key-by-key table `After` says |
| `Lifecycle.UpdatedAt` | src/coda_node/vpn/service.py:483-536 | Key by key: each setting after a bundle is the bundle's value where it brings a usable one, otherwise what it was |
| `Lifecycle.RefusedExactly` | src/coda_node/vpn/service.py:483-543 | A bundle is refused exactly for one of the listed reasons |
| `Restarts.Disk.PersistRuntimeConfig` | src/coda_node/vpn/service.py:124-148 | The key is written first; the configuration then holds every setting named one by one, and nothing else |
| `Restarts.Disk.ConnectSettings` | src/coda_node/vpn/service.py:560-589 | Fetch, bundle and persist in sequence: files unchanged on failure, otherwise the final settings, field by field |
| `Restarts.Disk.StartNode` | src/coda_node/vpn/service.py:576-589 | Construction and connect leave the files `Boot` says |
| `Restarts.SettingsComeFrom` | src/coda_node/server/config.py:206-225 | Each setting of a start comes from the environment alone with a token; otherwise from the environment unless missing or empty there, then from disk, then from the default |
| `Restarts.ReconnectFindsSettings` | src/coda_node/vpn/service.py:124-148 | After a start that connected and any that failed, a start with an empty environment has the credentials and every other setting with which the connected one ended |
| `Restarts.FingerprintIsStable` | src/coda_node/vpn/service.py:291-295 | A reconnect reports the fingerprint of the first connect, whatever the machine would generate |
| `Restarts.BootKeepsCredentials` | src/coda_node/vpn/service.py:583-589 | A failed start leaves both files unchanged; a connect or any start after one leaves both credentials on disk |
| `Restarts.CredentialsSurvive` | src/coda_node/vpn/service.py:560-589 | Over any sequence of starts, failing, refused or interrupted, the disk keeps a non-empty key and key id |
| `Restarts.TokenlessStart` | src/coda_node/server/config.py:253-268 | A start without a token takes each credential from the environment or else from disk, and validates iff it finds both |
| `Restarts.LaterStartsValidate` | src/coda_node/server/config.py:206-268 | After one connect and any further starts, a start without a token passes credential validation |
| `Restarts.ReconnectKeepsKey` | src/coda_node/vpn/service.py:489-499 | A reconnect bundle without a key keeps the key on disk |
| `Restarts.InterruptionSplitsThePair` | src/coda_node/vpn/service.py:126-148 | Key and key id on disk belong together if and only if the persist was not interrupted or the id did not change |

## Left out

- Several workers in one consumer group, claiming of other workers' messages, and stream trimming: the code does not coordinate them.
- Redis errors other than connection errors, and undecodable reply values: they take the same generic path as an unexpected exception.
- Executors that raise `CancelledError` themselves; it escapes every handler.
- JWT signing and verification, RSA keys, HTTP headers, the heartbeat loop, device topology, executor discovery, the CLI and the daemon: no hard property.
- Timestamps, log text, `last_job_at` and the error text of a failed report.
- The consumer under faults is a step machine on values, not an object: interleaving is the point there. The in-place form is kept for the healthy path only, so sharing of the consumer object between coroutines is not modelled in that form.
- Worker.RedisConsumer.ProcessMessage: Redis answers, POSTs are accepted and flags stand still here, and the polling loop is one call of the executor; the faults and the polling are in `Consumer` and the theorems about it.
- Worker.RedisConsumer.RecoverPending: as above; `Recovery.PassClears` has the version with arbitrary flags, executor and callback.
- Worker.RedisConsumer.TriageAll: as above.
- Worker.RedisConsumer.ProcessBatch: as above.
- Worker.RedisConsumer.DeliverBatch: deliveries finish in any order but are not interleaved inside; `QuietRuns.MachineServesBatch` has every interleaving.
- Worker.RedisConsumer.HandleBatch: as above.
- The order in which two coroutines waiting for one finished task resume: the model lets a waiting `drain` resume before the consume loop goes on, as the event loop's queue does.
- The length of the 60 s pending re-check and of the polling interval: whether they are due is a free choice of the environment.
- Quiet runs keep the consume loop at the head of its loop while deliveries finish; reads in between would only append to the pending list.
- QuietRuns.BatchMatchesOneByOne: states an equivalence about runs that come to rest; that such runs exist is `QuietProgress.BatchCompletes`.
- IEEE rounding, numerals of more than 4300 digits and non-ASCII digits or blanks in OpenQASM text.
- The default metadata of `openqasm_to_ir`, which contains the clock: metadata is a parameter.
- JSON encoding of circuits and of the persisted configuration, file permissions, and validators that run again on assignment.
- Types of settings other than the credentials at construction, the temporary directory (taken as `/tmp`), and a private key path other than the default one.
- Interface detection, DNS, HTTP probes and the OpenVPN process: each is a free answer of the environment.
