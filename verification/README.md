# lib-commons in Dafny

A verified model of the protocols and algorithms at the core of lib-commons. `dafny verify dfyconfig.toml` verifies
the whole project.

| Component | Modules | What is proved about it |
|---|---|---|
| RabbitMQ confirmable publisher | `Publisher`, `PublisherSafety`, `PublisherProgress`, `PublisherRecovery`, `PublisherChannels` | a step system of publishes, broker, close monitors, recovery, `Reconnect` and `Close`; an invariant of every interleaving, and from it outcomes that are truthful and complete, no stale confirmations, a lock and a `Close` that can always come to an end, a bounded and warranted recovery, and exactly when a channel is forgotten open |
| Cron | `Calendar`, `CronNext`, `CronGrammar`, `CronParse` | the skipping search refines the minute-by-minute one and is complete; an expression fires exactly on the minutes its fields name; the parser accepts exactly a grammar stated apart from it, and yields what it denotes up to 64-bit overflow, whose effect is exact |
| Dead-letter queue | `DlqKeys`, `DlqStore`, `DlqSafety`, `DlqPoll`, `DlqPrune`, `DlqConsumer`, `Backoff` | every message in exactly one place over every run, within its retry budget, under its own key, spaced by its backoff; the consumer's loops are runs of that system and functions of everything they meet |
| Transactions | `Transaction`, `TransactionLaws`, `TransactionPlans`, `TransactionPhases`, `TransactionGaps` | exactly which inputs plan, with which postings, and which fail with which error; plans balance; each phase changes the ledger by an exact amount; cancelling restores every balance; eligibility makes a plan applicable |
| Outbox | `LastError`, `RetentionSweep`, `Dispatch` | accumulated causes equal a closed form; the pruned sweep memory answers as a full history; one dispatch cycle makes exactly the repository calls it should, selects, handles and marks as promised |
| DSN scanner, secret paths | `Dsn`, `KafkaPath`, `ExternalReference` | parsers invert renderers, and refuse exactly the rest |
| Sealer | `Sealer` | concurrent rotations link up, take effect, fail only when overtaken, and keep payloads readable for one rotation |

Code that loops or updates state is a method, or a class with fields, proved against a specification function whose
properties are the lemmas. Protocols with several goroutines are step systems: one atomic step per lock region or
atomic operation, any step enabled at any time, so a run is any interleaving.

`Text` and `Numbers` hold what the other modules share.

## What the environment is taken to do

- Publisher: the channel is dedicated to the publisher; a message's return is queued before its confirmation; a failed
  send is never confirmed; a closed channel emits nothing more. A late close monitor may still close a channel that was
  just reconnected; that interleaving is in the model.
- Dead-letter queue: Redis commands are atomic and either happen or fail, the process does not stop between a pop and
  the push that follows, and the retry function leaves the retry fields alone. Any number of workers and enqueuers
  interleave in `DlqStore` and `DlqSafety`. What `DlqPoll`, `DlqPrune` and `DlqConsumer` say of one poll or prune assumes
  that no other worker or producer acts between its steps; failures, cancellation, clock readings, retry outcomes and
  random numbers are inputs to it.
- Transactions: amounts are exact. The percentage division and the bounds on amounts are parameters, so every result
  holds for any rounding and any bounds.
- Outbox: each repository call is a function of its limit; handler replies, interrupted waits, cancellation and stored
  marks are functions too, so results hold for all of them.
- Sealer: sealing is an ideal AEAD and distinct secrets have distinct fingerprints.
- Clock readings, jitter and broker, Redis or Postgres failures are arbitrary choices. Time in cron is unbounded.

## Where the code and its promises part

- Cron's search limit is commented as four years, but 29 February can be eight years away. The limit counts iterations,
  and the search spends one a day until it reaches a matching day, so it suffices; `Next` proves it.
- A cron step so large that the first addition overflows wraps around and adds values the field does not denote.
  `OverflowingStepMatchesMore` shows `59/9223372036854775807` firing at minute 57. A field's values all lie in its range
  exactly when no first addition overflows (`StepsFit`, in the contract of `ParseField`), and then they are the denoted
  ones. Whether the part fires at other minutes is finer: exactly when start + 2 * step - 2^64 is not below the field's
  minimum (`ExpandInRangeExactly`), so `1/9223372036854775807` fires as it reads. `Next` is proved for every schedule
  `Parse` returns, overflowing ones included.
- The cron parser reads numerals as `strconv.Atoi` does, so `0--0` and `*/+05` are in the language (`CronGrammar`).
- A close monitor may report late, after its channel was replaced. The publisher then believes its open channel closed,
  and the next `Reconnect` replaces that channel without closing it: `LateMonitorForgetsChannel` is such a run.
  `StepAccounts` shows that a step forgets an open channel exactly when it installs another over it, and
  `PromptMonitorsForgetNothing` that no run does so unless a monitor fires late.
- A failure cause that starts with the truncation marker's text, recorded between two others, makes the accumulator
  believe it is already full and lose later causes that would fit. `AccumulatedExactly` gives the exact condition,
  `AccumulatedFreezes` the value it is stuck at and `LookalikeLosesCause` the family.
- PENDING already credits the destination and APPROVED credits it again. Each phase's change is exact
  (`PhaseConserves`), and `ApprovalCreditsTwice` shows that the approval always applies and that the two together create
  the whole amount.
- An eligible plan can still fail to apply if it names one source balance twice, because each posting is checked against
  the balance on its own, or if a destination amount is out of range, which eligibility does not look at.
  `EligibleApplies` gives the exact condition, `RepeatedSourceFails` and `OutOfRangeDestinationFails` the failing inputs.
- The exponential delay stops doubling after 62 attempts. That is below saturation for a base of one nanosecond, and only
  then: `ExponentialExactly`.
- A path that `BuildModuleKafkaSecretPath` writes does not always parse back: the builder takes the environment untrimmed
  and lets slashes through. `BuildParsesExactly` says when it does.

## Model

| member | source | states |
|---|---|---|
| `PublisherSafety.StepKeeps` | commons/rabbitmq/publisher.go:425-961 | every broker, publish, monitor, recovery, `Reconnect` or `Close` step preserves the protocol's invariant: what the holder of the publish lock relies on, the verdict behind each outcome, and what each recovery has done with its channels |
| `PublisherSafety.ReachableKeeps` | commons/rabbitmq/publisher.go:361-961 | the invariant holds in every state any interleaving reaches from a new publisher |
| `PublisherSafety.OutcomesAreTruthful` | commons/rabbitmq/publisher.go:687-759 | success is returned only for a message the broker acked, never nacked and never returned; a returned, nacked or unsent outcome is as true of that very message, and a corrupted stream is reported only for one its publish gave up on |
| `PublisherSafety.PublishesAreConfirmed` | commons/rabbitmq/publisher.go:556-597 | a message is only ever sent on a channel that reports confirmations and returns |
| `PublisherProgress.AckedAnswers` | commons/rabbitmq/publisher.go:736-759 | an acknowledged publish answers with success exactly when the broker did not return the message, and leaves no return behind |
| `PublisherProgress.ConfirmedAnswers` | commons/rabbitmq/publisher.go:797-827 | a waiting publish is failed by the nack of its own message and goes on to look for a return after its ack |
| `PublisherProgress.AnswersHaveReasons` | commons/rabbitmq/publisher.go:687-827 | every answer a publish can give, from any reachable state, has its one reason: what the broker said, what the publisher had become, or that the publish gave up |
| `PublisherProgress.EveryVerdictIsAnswered` | commons/rabbitmq/publisher.go:687-759 | from every reachable state with a usable channel, each combination of return and confirmation the broker may give a new message can be the one its publish answers, with the publisher usable afterwards |
| `PublisherProgress.LockIsReleased` | commons/rabbitmq/publisher.go:599-866 | whoever holds the publish lock can give it back by its own steps, and a publish in flight then has its answer |
| `PublisherProgress.StepKeepsAnswers` | commons/rabbitmq/publisher.go:687-759 | no step takes an answer back or changes it |
| `PublisherRecovery.WaitersAreWoken` | commons/rabbitmq/publisher.go:425-443 | a publish waiting on a channel whose close its monitor has reported can see the close |
| `PublisherRecovery.GivenUpIsSignalled` | commons/rabbitmq/publisher.go:781-795 | a publisher without a channel is closed and has signalled it once the publish that gave the channel up has returned |
| `PublisherRecovery.CloseTellsEverybody` | commons/rabbitmq/publisher.go:831-866 | after shutdown every monitor and every recovery still running can see that it must stop |
| `PublisherRecovery.RecoveryIsNotStoppedIdly` | commons/rabbitmq/publisher.go:445-633 | a recovery that heeds the current stop signal is stopped only by `Close` or by a recovery taking over |
| `PublisherRecovery.DeathIsRecovered` | commons/rabbitmq/publisher.go:425-633 | from every reachable state whose channel is watched, its death can be followed by a recovery that installs the provider's channel, open, watched and current, in an open publisher |
| `PublisherRecovery.DeathIsGivenUpOn` | commons/rabbitmq/publisher.go:445-487 | or by one that uses all its attempts, after which a publish is told that recovery is exhausted |
| `PublisherRecovery.ReconnectRestores` | commons/rabbitmq/publisher.go:885-961 | a caller's usable channel reopens any publisher that is closed and not shut down and clears an exhausted recovery; an unusable one changes nothing |
| `PublisherRecovery.CloseCompletes` | commons/rabbitmq/publisher.go:831-866 | from every reachable state `Close` can run to its end |
| `PublisherRecovery.NothingMovesAfterClose` | commons/rabbitmq/publisher.go:687-961 | once `Close` has returned, a publish adds its own answer and nothing else, and `Reconnect` and a second `Close` change nothing |
| `PublisherRecovery.ProviderIsUsedSparingly` | commons/rabbitmq/publisher.go:445-597 | counting provider calls over a whole run, no monitor asks more often than allowed, and between attempts or at its end each channel it was given is installed or closed |
| `PublisherRecovery.RecoveriesAreWarranted` | commons/rabbitmq/publisher.go:425-487 | a recovery runs only for a channel that closed and with a provider configured, and exhaustion is reported only when one used up its attempts |
| `PublisherSafety.NoStaleConfirmation` | commons/rabbitmq/publisher.go:781-827 | a waiting publish can only ever receive its own confirmation, so one left by a timed-out or cancelled publish is never taken for a later message |
| `PublisherSafety.NoStaleReturn` | commons/rabbitmq/publisher.go:189-219 | while a publish waits, its channel holds exactly its own return, if the broker made one |
| `PublisherSafety.StepAfterShutdown` | commons/rabbitmq/publisher.go:831-961 | no step after shutdown lifts it or adds a delivered message |
| `PublisherSafety.RunAfterShutdown` | commons/rabbitmq/publisher.go:831-866 | no run after shutdown lifts it or delivers anything more |
| `PublisherSafety.CloseIsFinal` | commons/rabbitmq/publisher.go:831-961 | after `Close`, however recovery interleaves, the publisher stays closed, nothing more is delivered and every `Reconnect` is refused as after close |
| `PublisherSafety.RecoveryIsBounded` | commons/rabbitmq/publisher.go:445-597 | a recovery makes at most the configured provider calls, and between attempts or at its end every channel it obtained has been installed or closed |
| `PublisherChannels.CloseClosesChannel` | commons/rabbitmq/publisher.go:831-866 | once `Close` has returned, in every interleaving, the publisher's current channel is closed |
| `PublisherChannels.StepAccounts` | commons/rabbitmq/publisher.go:556-961 | every open channel stays current or in a recovery's hands, except exactly when a step installs a channel over one that is still open |
| `PublisherChannels.PromptMonitorsForgetNothing` | commons/rabbitmq/publisher.go:411-443 | no run in which monitors report only on the current channel leaves another channel open and unheld |
| `PublisherChannels.LateMonitorForgetsChannel` | commons/rabbitmq/publisher.go:885-961 | a late monitor followed by a `Reconnect` leaves an open channel that is neither current nor held |
| `Calendar.OrderAgrees` | commons/cron/cron.go:125-160 | the field-by-field order of calendar times is the order of their minute counts |
| `Calendar.EveryMinuteIsATime` | commons/cron/cron.go:125-126 | every whole minute, past or future, is exactly one valid calendar time |
| `Calendar.StepsAdvance` | commons/cron/cron.go:131-158 | the search's month, day, hour and minute jumps land on valid times a known distance ahead |
| `Calendar.WeekdaysRun` | commons/cron/cron.go:168-183 | 1970-01-01 is a Thursday and every next day has the next weekday, Sunday following Saturday |
| `Calendar.LeapYearWithinEight` | commons/cron/cron.go:128-129 | a leap year is never more than eight years away |
| `CronNext.Next` | commons/cron/cron.go:119-161 | the answer is the least matching minute strictly after `from`; the search gives up exactly when day-of-month alone decides and no listed day exists in a listed month, and then nothing ever matches |
| `CronNext.OneDayField` | commons/cron/cron.go:168-183 | a schedule that restricts one day field fires on the days that field lists; one that restricts none, on every day |
| `CronNext.BothDayFields` | commons/cron/cron.go:163-183 | a schedule that restricts both fires when either of the two that restrict one would |
| `CronNext.NextOfBoth` | commons/cron/cron.go:119-183 | its next time is the earlier of theirs |
| `CronNext.MatchWithinWait` | commons/cron/cron.go:128-183 | any schedule that can match does so within the longest gap, eight years with a non-leap century included, of any time |
| `CronNext.NeverMatches` | commons/cron/cron.go:168-183 | a schedule that names only days that do not exist matches no time at all |
| `CronNext.MatchingDayIsNotLeft` | commons/cron/cron.go:130-160 | a matching day searched from midnight yields a match, so the search spends at most one iteration on each day it passes |
| `CronNext.FoundIsLeast` | commons/cron/cron.go:130-160 | a match reached by skipping is the least one |
| `CronNext.ExhaustedMeansUnmatchable` | commons/cron/cron.go:128-161 | a search that spends all its iterations has passed the longest gap, so nothing can ever match |
| `CronParse.Parse` | commons/cron/cron.go:56-108 | an expression is accepted exactly when it has five fields of the grammar; the schedule holds the values the fields denote, Sunday as 0 or 7, and always meets what `Next` needs, also where steps overflow |
| `CronParse.ExpressionFires` | commons/cron/cron.go:56-183 | from text to firing: an expression whose steps do not wrap back into range fires exactly on the minutes its five fields name, the two day fields by their union unless one is a bare star |
| `CronParse.FieldsOfText` | commons/cron/cron.go:56-66 | words separated by any blanks are read back as those words, so the count of fields is the count of words |
| `CronParse.ParseField` | commons/cron/cron.go:185-198 | a field is accepted exactly when every part is in the grammar; its values are ascending, include one in range, all lie in range exactly when no step overflows, and within the range are the denoted ones unless a part wraps back into it |
| `CronParse.ParsePart` | commons/cron/cron.go:200-289 | a part is accepted exactly when some star, range or value with an optional step spells it, and expands to that syntax's progression under wrap-around addition |
| `CronParse.PartGrammar` | commons/cron/cron.go:200-289 | the part reader gives a text a progression exactly when a syntax tree renders to that text and means that progression |
| `CronParse.Deduplicate` | commons/cron/cron.go:291-305 | the same values, ascending and without repeats |
| `CronParse.NormalizeDow` | commons/cron/cron.go:315-323 | the same weekdays with 7 read as 0, ascending |
| `CronParse.ExpandFits` | commons/cron/cron.go:247-256 | the expansion loop yields exactly the progression when its first addition fits 64 bits, whatever the step |
| `CronParse.ExpandOverflows` | commons/cron/cron.go:247-256 | when the first addition overflows it yields a value below the field's range |
| `CronParse.ExpandInRangeExactly` | commons/cron/cron.go:247-256 | within the field's range the loop yields exactly the progression if and only if start + 2 * step - 2^64 is below the field's minimum |
| `CronParse.OverflowingStepMatchesMore` | commons/cron/cron.go:247-256 | `59/9223372036854775807` also yields 57, which it does not denote |
| `Backoff.ExponentialSaturates` | commons/backoff/backoff.go:19-38 | the quotient guard is exact: the delay is the true product, or the largest duration when that overflows |
| `Backoff.ExponentialExactly` | commons/backoff/backoff.go:19-38 | against the unclamped doubling, saturated, the delay is right exactly up to 62 attempts or for any base above one nanosecond |
| `Backoff.ExponentialMonotone` | commons/backoff/backoff.go:19-38 | later attempts never wait less, and delays stay between the base and the largest duration |
| `Backoff.BackoffRange` | commons/dlq/handler.go:145-151 | the retry delay is the jitter drawn, but at least five seconds, and at most the saturated exponential |
| `DlqKeys.ValidateKeySegment` | commons/dlq/keys.go:75-83 | a segment is accepted exactly when it holds none of the separator and glob characters |
| `DlqKeys.KeyInjective` | commons/dlq/keys.go:20-43 | two valid tenant and source pairs share a key only if they are equal, no tenant included |
| `DlqKeys.ExtractInverts` | commons/dlq/keys.go:48-69 | a non-empty tenant is extracted from a key exactly when the key is the one built for it |
| `DlqKeys.GlobalKeyHasNoTenant` | commons/dlq/keys.go:48-69 | the key of a queue without a tenant yields none |
| `DlqSafety.StepKeeps` | commons/dlq/handler.go:158-354 | every enqueue, pop, put-back, retry, discard and prune preserves the conservation invariant |
| `DlqSafety.RetryKeeps` | commons/dlq/consumer.go:455-523 | a retry that succeeds, fails and is queued again, or fails and cannot be queued, keeps each message in one place and within its budget |
| `DlqSafety.EnqueueKeeps` | commons/dlq/handler.go:158-279 | an enqueue, accepted or refused, preserves the conservation invariant |
| `DlqSafety.EnqueueArrives` | commons/dlq/handler.go:158-279 | an enqueue leaves no trace exactly when it refuses the source, the tenant or a foreign context, or its push fails; otherwise the message is at the back of its own tenant's and source's list, as handed over but for its tenant, its default budget, its creation time and, when it is new and within its budget, a first retry time of five seconds to its backoff's cap; nothing else moved |
| `DlqSafety.ExactlyOnePlace` | commons/dlq/consumer.go:344-523 | over any run every accepted message is in exactly one queue slot, hand or final record |
| `DlqSafety.NobodyElse` | commons/dlq/consumer.go:344-523 | nothing that was not accepted is ever anywhere |
| `DlqSafety.CallsWithinBudget` | commons/dlq/consumer.go:420-523 | over any run the retry function is called on a message at most its budget minus its count times, both as handed to `Enqueue`, the configured budget standing in for a missing one |
| `DlqSafety.QueuedUnderOwnKey` | commons/dlq/handler.go:158-279 | over any run a queued message sits under the key of its own tenant and source |
| `DlqSafety.RetriesAreSpaced` | commons/dlq/consumer.go:428-523 | a retry comes at least five seconds after the previous call on that message, and the message becomes ready within its backoff's cap |
| `DlqConsumer.Consumer.Dequeue` | commons/dlq/handler.go:305-354 | the head of the tenant's list, already naming that tenant and source, moves to the worker's hand; a bad source or tenant is refused with nothing changed |
| `DlqConsumer.Consumer.ProcessMessage` | commons/dlq/consumer.go:420-523 | the state is that of the one step the code chooses after reading the clock: put back, discard or retry; whether it worked is exactly whether the message was ready or its push failed |
| `DlqConsumer.Consumer.DrainOnce` | commons/dlq/consumer.go:366-410 | state, work, fault and pops of one round are exactly those of the specification whose guarantees follow |
| `DlqConsumer.Consumer.DrainSource` | commons/dlq/consumer.go:344-414 | the call is its rounds, ended early exactly at a failure or an empty list |
| `DlqConsumer.Consumer.ProcessSource` | commons/dlq/consumer.go:270-333 | a poll serves the scanned tenants strictly in turn, makes exactly the drains the code allows (batch size, an idle turn or a dead context, and no earlier) and ends in the state those drains lead to |
| `DlqConsumer.Consumer.PruneExhaustedMessages` | commons/dlq/handler.go:451-518 | state, count and failure are exactly those of the passes made; without failure only spent messages are gone, every other one is kept, and none spent remains when the limit covers the list |
| `DlqPoll.WorkOutcome` | commons/dlq/consumer.go:420-523 | where the message of one turn ends up in every case, and that it is lost exactly when a push it needed failed; a failed retry goes to the back of its own list with one more retry counted, a retry time between five seconds and its backoff's cap after the failure, and nothing else changed |
| `DlqPoll.PutBackExactly` | commons/dlq/consumer.go:420-447 | a message goes back untouched exactly when its retry time is still ahead as the clock is read and the push succeeds |
| `DlqPoll.DrainReachesReady` | commons/dlq/consumer.go:344-414 | a round pops at most the smaller of list length and batch size, only turns the list when it does no work, and unless a fault stops it never passes by a message ready within that many |
| `DlqPoll.CalmDrain` | commons/dlq/consumer.go:344-414 | without faults a round works exactly when a message within the cap is ready when the clock is read for it |
| `DlqPoll.RoundsBounded` | commons/dlq/consumer.go:344-414 | a call processes at most its limit and pops at most the batch size per round |
| `DlqPoll.EarlyStopMeansNothingReady` | commons/dlq/consumer.go:304-333 | a calm poll that stops before its batch size leaves no tenant that had a ready message within the cap at its last drain |
| `DlqConsumer.OneRound` | commons/dlq/consumer.go:320-325 | with the limit of one that polling uses, a drain is one round |
| `DlqPrune.CalmPruneSucceeds` | commons/dlq/handler.go:451-518 | pruning fails only at a bad source or tenant, or a pop or push that failed |
| `Transaction.BuildIntentPlan` | commons/transaction/validations.go:23-83 | computes the plan, or the refusal, that `PlanExactly` and `PlanAmounts` determine |
| `Transaction.BuildPostings` | commons/transaction/validations.go:410-510 | computes one side's postings, or its refusal, as `SideExactly` and `SideAmounts` determine them |
| `TransactionPlans.PlanExactly` | commons/transaction/validations.go:23-83 | a plan exists exactly when the header is sound, the status fits the kind of transaction, each side's allocations are sound and add up, and no balance is on both sides; ambiguity, mismatch and state errors are each reported for exactly their cause |
| `TransactionPlans.PlanAmounts` | commons/transaction/validations.go:23-569 | each posting of a plan carries its allocation's target and route, the input's asset, its side's operation and the status; its amount is the stated one, the total times the rounded percentage, or the total less all the others of its side |
| `TransactionPlans.SideExactly` | commons/transaction/validations.go:410-569 | a side is built exactly when every allocation names a target, uses one strategy with a positive amount in range, at most one takes the rest, and the amounts make up the total or leave a positive rest |
| `TransactionPlans.SideAmounts` | commons/transaction/validations.go:410-569 | every posting of a side is its allocation's, with the amount its strategy fixes |
| `TransactionPlans.TargetIsNamed` | commons/transaction/transaction.go:136-146 | a target is accepted exactly when neither its account nor its balance is blank |
| `TransactionPlans.PostingExactlyApplies` | commons/transaction/validations.go:234-369 | a posting applies exactly when it names this balance, account and asset with a positive amount in range, its status admits its operation and the funds it draws on suffice; it then moves them by its delta and counts one version |
| `TransactionPlans.PostingRefused` | commons/transaction/validations.go:234-369 | each refusal of a posting has its exact cause |
| `TransactionPlans.SourceRefused` | commons/transaction/validations.go:94-157 | the cause behind each refusal of a source, existence before scope, asset and permission |
| `TransactionPlans.DestinationRefused` | commons/transaction/validations.go:160-231 | the cause behind each refusal of a destination; an external one must be at zero |
| `Transaction.SumPostings` | commons/transaction/validations.go:592-600 | the exact sum of the amounts |
| `Transaction.ValidateBalanceEligibility` | commons/transaction/validations.go:94-231 | accepts exactly the plans whose every posting names a known, permitted, sufficiently funded balance, all of one scope, whatever the order in which references are discovered; a refusal is that of the first posting that is not eligible after eligible ones |
| `TransactionLaws.PlanShape` | commons/transaction/validations.go:23-83 | a plan's amounts are positive, both sides sum to its total for any rounding, and no balance is on both sides |
| `TransactionLaws.ResolvedIsAccepted` | commons/transaction/validations.go:283-408 | no operation and status that resolution yields is refused when applied |
| `TransactionLaws.PostingMoves` | commons/transaction/validations.go:234-369 | a posting that applies moves the funds by its delta, leaves nothing negative and touches nothing else but the version |
| `TransactionLaws.AppliedMoves` | commons/transaction/validations.go:234-253 | over any sequence of postings that apply, each balance moves by exactly the sum of its own postings |
| `TransactionLaws.AppliedKeepsAccounts` | commons/transaction/validations.go:234-253 | applying postings adds, removes and renames no balance |
| `TransactionLaws.PhaseConserves` | commons/transaction/validations.go:23-83 | when all postings of a plan apply, in any order, total available and on-hold change by exactly (0,0), (0,+T), (0,-T) or (+T,-T) for CREATED, PENDING, CANCELED and APPROVED |
| `TransactionLaws.AllApply` | commons/transaction/validations.go:234-369 | postings of one kind per balance apply one after another exactly when every balance affords all of its own together |
| `TransactionPhases.PlanRelabels` | commons/transaction/validations.go:23-83 | an input planned under one pending status plans under the others with the same targets and amounts |
| `TransactionPhases.CancelRestores` | commons/transaction/validations.go:234-408 | once all PENDING postings of an input applied, all CANCELED ones apply in any order and every balance's funds are back, repeated balances included |
| `TransactionPhases.ApprovalApplies` | commons/transaction/validations.go:234-408 | from non-negative balances, once all PENDING postings of an input applied, its approval can be planned and applies in any order |
| `TransactionPhases.ApprovalCreditsTwice` | commons/transaction/validations.go:322-408 | once all PENDING postings applied, all APPROVED ones apply in any order, and together they raise the total available by the whole amount and leave on-hold where it was |
| `TransactionPhases.EligibleApplies` | commons/transaction/validations.go:94-253 | an eligible CREATED or PENDING plan applies, in any order, exactly when each source covers all it is asked together and destination amounts are in range; distinct sources suffice |
| `TransactionGaps.RepeatedSourceFails` | commons/transaction/validations.go:94-157 | a plan that asks one source balance twice for amounts it covers only one at a time is accepted by planning and eligibility and does not apply in any order |
| `TransactionGaps.OutOfRangeDestinationFails` | commons/transaction/validations.go:160-189 | a plan whose destination remainder is outside the supported range is accepted by planning and eligibility and does not apply in any order |
| `TransactionPhases.EligibleSharesScope` | commons/transaction/validations.go:212-231 | balances of an eligible plan that carry a scope share one organization and ledger |
| `LastError.TruncateToRuneBudget` | commons/outbox/last_error.go:159-174 | the longest prefix within the budget |
| `LastError.LineBreaksFold` | commons/outbox/last_error.go:149-155 | each line break of a cause, a carriage return and line feed counting as one, becomes one space and the lines stay as they are |
| `LastError.BlanksAreReplaced` | commons/outbox/last_error.go:86-115 | a blank value is replaced like an empty one, and a blank cause changes nothing |
| `LastError.MarkerInJoin` | commons/outbox/last_error.go:86-115 | joined causes contain the marker exactly when a later cause starts with its text |
| `LastError.AppendNew` | commons/outbox/last_error.go:86-137 | a new cause extends the closed form by one line, or by the marker once |
| `LastError.AppendRecorded` | commons/outbox/last_error.go:86-144 | a recorded or empty cause changes nothing |
| `LastError.AccumulatedExactly` | commons/outbox/last_error.go:86-174 | folding causes from empty gives the newline join of the first-seen distinct causes up to the first that does not fit, marked once if text was dropped, exactly when no kept cause between the first and the last reads like the marker |
| `LastError.AccumulatedFreezes` | commons/outbox/last_error.go:86-115 | otherwise the value stops at the first such cause for good |
| `LastError.LookalikeLosesCause` | commons/outbox/last_error.go:86-115 | a cause after one that reads like the marker is lost though it fits |
| `LastError.NeverTooLong` | commons/outbox/last_error.go:86-137 | no append takes a value that fits the column past 512 characters |
| `LastError.AccumulatedPromises` | commons/outbox/last_error.go:86-144 | for any causes the value fits the column, is a prefix of every later one, and re-appending a recorded cause changes nothing |
| `RetentionSweep.Dispatcher.ClaimRetentionSweep` | commons/outbox/dispatcher.go:790-821 | grants a scope exactly when its remembered sweep is an interval old or gone, and records the sweep after dropping aged entries once per interval |
| `RetentionSweep.PrunedAnswersAsFull` | commons/outbox/dispatcher.go:790-821 | under a clock that never runs back, after any claims the pruned memory answers the next one as a history that forgets nothing |
| `RetentionSweep.SweepsAreSpaced` | commons/outbox/dispatcher.go:790-821 | two granted sweeps of one scope are at least one interval apart, whatever was claimed between |
| `RetentionSweep.GrantedExactly` | commons/outbox/dispatcher.go:790-821 | a claim is granted exactly when no sweep of its scope was granted less than an interval before |
| `RetentionSweep.PrunesAreSpaced` | commons/outbox/dispatcher.go:802-817 | the memory is pruned at most once per interval and forgets no scope in between |
| `RetentionSweep.MemoryStaysSmall` | commons/outbox/dispatcher.go:802-817 | right after any grant every remembered sweep is younger than two intervals |
| `Dispatch.DeduplicateEvents` | commons/outbox/dispatcher.go:1066-1088 | exactly the first row of each event, in row order, nil rows skipped |
| `Dispatch.CollectPriorityEvents` | commons/outbox/dispatcher.go:1090-1131 | one call for all types where the repository can; otherwise the configured types in their order, each asked for the budget its predecessors left, until nothing is left; the rows are what those calls answered |
| `Dispatch.CollectEvents` | commons/outbox/dispatcher.go:977-1045 | exactly the right repository calls, each layer holding its own call's rows: stuck events are asked for the room behind the priority layer unless the claim is scoped, then failed ones for the smaller of room and cap, then pending ones for what remains, each only while there is room and after the one before; the events are the first rows of those layers, distinct, and at most the batch size when the repository honours limits |
| `Dispatch.LayersFit` | commons/outbox/dispatcher.go:977-1045 | the four layers together fit the batch, failed events their cap and priority events their budget |
| `Dispatch.LayersInOrder` | commons/outbox/dispatcher.go:966-1045 | whatever the layers hold, events come in priority, stuck, failed, pending order, each from the earliest layer that lists it; what the layers hold is in `CollectEvents` |
| `Dispatch.LeftoverRoomIsOffered` | commons/outbox/dispatcher.go:1004-1045 | pending events are skipped only behind a full batch or a scoped claim |
| `Dispatch.PublishEventWithRetry` | commons/outbox/dispatcher.go:1242-1286 | the handler is called up to the first attempt that succeeds, fails for good, is the last allowed or is not waited out, and no further |
| `Dispatch.PublishesExactly` | commons/outbox/dispatcher.go:1242-1286 | an event is published exactly when it has a payload and a permitted attempt succeeds after none but retryable, fully waited failures |
| `Dispatch.DispatchEvents` | commons/outbox/dispatcher.go:380-421 | every event begun before cancellation is called and marked as its attempts decide, and counted once |
| `Dispatch.DispatchOnceResult` | commons/outbox/dispatcher.go:343-429 | the right repository calls, distinct events, at most the configured number of handler calls (three when none is configured) and one mark each, every mark truthful, counters equal to the marks made, and with a repository that honours limits at most the batch size of events |
| `Dispatch.Tally` | commons/outbox/dispatcher.go:380-428 | processed is published plus failed, and state-update failures are among the published; `TallyCountsMarks` says which events they count |
| `Dispatch.TallyCountsMarks` | commons/outbox/dispatcher.go:380-428 | published counts the PUBLISHED marks, failed the FAILED and INVALID ones, and state-update failures the PUBLISHED marks that were not stored |
| `Dispatch.CallsArePerEvent` | commons/outbox/dispatcher.go:380-421 | each selected event gets at most the allowed handler calls and exactly one mark; any other identifier gets none |
| `Dispatch.CycleMarksAreTruthful` | commons/outbox/dispatcher.go:380-421 | PUBLISHED is marked right after the handler's success on that event and after every such success; FAILED and INVALID never after one |
| `Dispatch.InvalidExactly` | commons/outbox/dispatcher.go:1288-1347 | with a classifier that looks through wrapping, an event is marked INVALID exactly when its last error is non-retryable, or when attempts were left, so that a wait was cut, and a cut wait counts as such |
| `Dsn.ScanDsnValue` | commons/postgres/postgres.go:319-360 | the value and rest of the specification that inverts rendering, or refused with it |
| `Dsn.DsnKeywordValue` | commons/postgres/postgres.go:284-314 | the keyword's value under that specification |
| `Dsn.UnescapeInverts` | commons/postgres/postgres.go:363-365 | the two passes undo the escaping of every value |
| `Dsn.QuotedScan` | commons/postgres/postgres.go:341-359 | scanning an escaped quoted value stops exactly at its closing quote, and runs off the end when there is none |
| `Dsn.BareScan` | commons/postgres/postgres.go:324-339 | scanning an escaped bare value stops at the first blank after it, and fails at a lone backslash |
| `Dsn.RenderedSettings` | commons/postgres/postgres.go:284-360 | rendered settings are read back in order, and what follows is read as if it stood alone |
| `Dsn.KeywordOfRendered` | commons/postgres/postgres.go:284-365 | for any rendered settings the result is the last value bound to the keyword, so text inside a value never becomes a setting |
| `Dsn.LastBindingIsLast` | commons/postgres/postgres.go:284-314 | of several bindings of a keyword the last counts, and without one the value is empty |
| `Dsn.MalformedTails` | commons/postgres/postgres.go:284-360 | malformed are a text without `=`, one without a key, a quoted value without its closing quote, also after a lone backslash, and a bare value that ends in one |
| `Dsn.MalformedHidesAll` | commons/postgres/postgres.go:284-314 | a malformed rest, whatever is wrong with it, makes every keyword read as empty |
| `KafkaPath.SanitizeKafkaSegment` | commons/secretsmanager/kafka.go:121-131 | the builder ends with exactly the specification that is idempotent and that the path parser inverts: lower-cased letters and digits, everything else dropped |
| `KafkaPath.SanitizeIdempotent` | commons/secretsmanager/kafka.go:121-131 | sanitizing twice is sanitizing once |
| `KafkaPath.SanitizedCharacter` | commons/secretsmanager/kafka.go:121-131 | a small letter or digit is kept, a capital becomes its small letter, and apart from the two capitals outside ASCII that lower to one everything else is dropped |
| `KafkaPath.SanitizedAppends` | commons/secretsmanager/kafka.go:121-131 | a segment is sanitized character by character |
| `KafkaPath.DashesGo` | commons/secretsmanager/kafka.go:147-156 | of a tenant only the dashes go, each on its own |
| `KafkaPath.ParseInvertsBuild` | commons/secretsmanager/kafka.go:147-423 | for any environment, a path parses as a tenant and module exactly when it is the path built for the trimmed environment and them, and they are canonical and slash-free |
| `KafkaPath.BuildParsesExactly` | commons/secretsmanager/kafka.go:147-423 | a built path parses back, to the canonical tenant and module, exactly when the environment is trimmed, it and the tenant have no slash, and neither canonical segment is empty |
| `ExternalReference.LengthAllowed` | commons/secretsmanager/external_reference.go:103-114 | the incremental check passes exactly when the joined reference fits 512 |
| `ExternalReference.ScopeError` | commons/secretsmanager/external_reference.go:246-265 | a scope is accepted exactly when its tenant, application and target, and its environment if it has one, are names: permitted characters, at least one, no two dots in a row |
| `ExternalReference.SegmentErrorExactly` | commons/secretsmanager/external_reference.go:275-298 | a segment is accepted exactly when it is a name, and is an invalid input exactly when it is blank |
| `ExternalReference.CanonicalExactly` | commons/secretsmanager/external_reference.go:300-321 | a version is canonical exactly when it is five groups of 8, 4, 4, 4 and 12 lower-case hexadecimal digits joined by dashes |
| `ExternalReference.Build` | commons/secretsmanager/external_reference.go:73-101 | succeeds exactly for a valid scope, a canonical version and a fitting length, with a reference that parses under that scope |
| `ExternalReference.ParseMeans` | commons/secretsmanager/external_reference.go:119-311 | a reference parses under a scope exactly when it is that scope's reference to some canonical version and fits |
| `ExternalReference.ParsesUnderOneScope` | commons/secretsmanager/external_reference.go:119-244 | no reference parses under two scopes |
| `Sealer.Open` | commons/crypto/sealer.go:149-174 | opens exactly the payloads sealed under the current or previous key with the same additional data, and gives back the plaintext |
| `Sealer.StepKeeps` | commons/crypto/sealer.go:182-202 | every load, failed swap, swap and no-op return of concurrent rotations keeps generations linked and published keysets unchanged |
| `Sealer.GenerationsLink` | commons/crypto/sealer.go:182-202 | in every interleaving each keyset's previous key is its predecessor's current one and differs from its own, and a returned rotation to that key published it |
| `Sealer.RotateTakesEffect` | commons/crypto/sealer.go:182-202 | a completed rotation made its key current at some instant during the call |
| `Sealer.RotateAloneCompletes` | commons/crypto/sealer.go:182-202 | from every reachable state a rotation left alone returns in at most two steps, having published its key over the current one, or nothing when its key was current |
| `Sealer.FailedSwapWasOvertaken` | commons/crypto/sealer.go:193-202 | a swap fails only because another rotation has published since the load |
| `Sealer.PublishedIsForever` | commons/crypto/sealer.go:116-202 | published keysets are never replaced in the history, whatever runs next |
| `Sealer.SealedSurvivesOneRotation` | commons/crypto/sealer.go:131-202 | a payload, carrying its plaintext, opens after any number of no-op rotations and at most one effective one |
| `Sealer.SealedAfterMoreRotations` | commons/crypto/sealer.go:131-202 | after two or more it opens exactly when its key has become current or previous again |

## Left out

- The publisher and the sealer are step systems on values, not classes: interleavings at lock and atomic boundaries are the point, and a sequential class would hide them. Blocking, fairness and the Go memory model are not captured.
- Publisher health callbacks and `HealthState`, option setters, timeouts as durations and logging: plumbing around the protocol.
- Dequeue's loss of a message that fails to decode, and a process that stops between pop and push: both are documented at-most-once losses.
- The error text, creation time format and JSON encoding of dead-letter messages, and `ScanQueues`: the scan's result is a parameter.
- Decimal representation limits and 64-bit version wrap-around of balances.
- `TrimSpace`-style functions work on code points; lengths are counted in code points, so byte lengths agree only for ASCII, which the reference segments are.
- Poll scheduling, tenant turn rotation, metric keys, list-failure counters and the OnFailed/OnInvalid callbacks of the outbox dispatcher: each is a counter, a lookup or a callback whose effect its body shows.
- The outbox SQL and Mongo repositories: only the limits of their calls are used.
- Key derivation, secret length checks and the AEAD itself in the sealer.
- Mongo, Redis and Postgres clients, the RabbitMQ connection, locks, circuit breaker, JWT, certificates, telemetry and configuration loading: their behaviour lies in other libraries or is plumbing.
