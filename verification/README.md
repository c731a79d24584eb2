# Verified model of the CRM backend's durable protocols

The backend keeps its promises with small protocols over database rows: leases, outboxes, token families,
version fences. This project models those protocols and proves what they keep over whole runs, together with
the fast forms that stand for simple ones (paging, the sliding-window limiter, opening hours, response windows,
percentiles, rotation) and the hand-written token codec.

A service function is one atomic step on its tables. Where the source updates rows, the module has a class with
those tables as fields and one method per function; its `ensures` equates the new state with `Next(old state,
step)` and appends the step to a ghost run, so `Valid()` means that the object's past is a run, and every theorem
about runs holds of every object. Theorems speak of `states[i]` and `steps[i]` for all runs. Each run also records
what only the environment knows: ids and tokens drawn, provider calls made, effects committed. Provider answers,
handler outcomes, clocks and drawn ids are arguments of the steps; a predicate `Admissible` in each module says
what is assumed of them (drawn ids are new, clocks do not run backwards where that matters, queries return what
they select).

| module | models |
|---|---|
| Common, Ordering | shared vocabulary; rows ordered by (time, id) |
| Webhooks | the webhook inbox and the effect transaction |
| Sessions | sessions and refresh-token families |
| Messaging | queueing, dispatch, unknown outcomes, delivery reports, human/AI control |
| Timers | conversation timers, the outbox and its relay |
| Automation, Executions | the action ledger with the dispatcher loop; the execution ledger |
| Pagination | keyset pages |
| RateLimiter | the in-memory limiter |
| BusinessHours | window validation, the test, the next opening |
| Tokens | unpadded base64url, the canonical check, joining and splitting |
| Kpi, Percentiles | response windows; interpolated percentiles |
| RoundRobin | assignment in rotation |

## Where the code and its promises differ

The code is modelled as it is. Each of these is stated in the model as a lemma, with the exact condition where the
promise holds.

- `commit_webhook_effects` runs the effect before its last fence. If the caller keeps the transaction although it
  answered False, that effect is committed beside the one of the rightful holder, whichever comes first
  (`Webhooks.EffectsAreAccounted`, `Webhooks.EffectAtMostOnceExactlyIf`, `Webhooks.DoubleEffectRun`). It has no
  caller in the application yet.
- The off-hours auto-reply has a system author, and a check constraint forbids such a message a provider id. An
  accepted dispatch of it is rolled back after the provider call and can be repeated (`Messaging.ProviderBudget`,
  `Messaging.AutoReplySentTwice`).
- `finish_action_attempt` and `complete_execution` test the token and not the status, so a claim finished twice
  reopens a success (`Automation.SuccessesAccounted`, `Executions.SecondCompletionReopens`). The dispatcher finishes
  each claim once, and neither `execute_actions` nor `complete_execution` has a caller in the application yet.
- `schedule_execution_retry` takes no token, so failures can be put off without a claim and more than four times
  (`Executions.RetriesByAttempt`, `Executions.FiveRetriesRun`). It has no caller in the application yet either.
- A handler's result is merged over the dispatcher's entry: the send handler's own status makes the entry of a
  succeeded send read `queued` (`Automation.EntriesNameTheirAction`, `Automation.SucceededSendReadsQueued`).
- `retry_after` is rounded down: waiting exactly that long suffices only for waits of at most a second or of whole
  seconds (`RateLimiter.RetryAfterSuffices`). A limit that is not positive reads from an empty queue
  (`RateLimiter.CrashesExactlyWithoutPositiveLimit`).
- A `failed` report overwrites any status, so rank falls exactly then (`Messaging.RankDropsExactlyOnFailure`).
- The 1800 s slot of the webhook backoff and the 300 s cap of the relay are never reached
  (`Webhooks.AttemptsMatchStatus`, `Timers.RelayDelayNeverCapped`).

The next opening needs no closing text and the test does, but this is no such case: the only writer of business
hours (app/api/v1/settings.py:147) stores validated windows, and their default is empty.
`BusinessHours.AnswersAreOpenExactlyIfCovered` says for which hours the two functions agree.

## Model

| member | source | states |
|---|---|---|
| Webhooks.Inbox.Claim | app/services/webhook_events.py:17-32 | a row is leased under a fresh token exactly if it is received, failed, or processing past its lease, and its next attempt is due; otherwise nothing changes; the whole new table is stated |
| Webhooks.Inbox.Complete | app/services/webhook_events.py:35-45 | answers True exactly for the row's own token while it is processing, and then marks it processed |
| Webhooks.Inbox.Fail | app/services/webhook_events.py:48-62 | under the row's own token: failed with the next attempt set by the attempt number, dead letter from the fifth attempt on |
| Webhooks.Inbox.Redrive | app/services/webhook_events.py:65-74 | only a dead letter goes back to received, with its attempts reset |
| Webhooks.Inbox.BeginCommit | app/services/webhook_processing.py:24-27 | the first, unlocked test of the effect transaction |
| Webhooks.Inbox.EndCommit | app/services/webhook_processing.py:27-28 | the closing fence: completes the row, and the effect becomes visible if the caller's transaction commits |
| Webhooks.CallLeaves | app/services/webhook_events.py:17-74 | field by field what each successful call leaves of its row: the sixty-second lease, the four backoffs, the dead letter from attempt five on, the reset of a redrive; no other row changes |
| Webhooks.ClaimByStatus | app/services/webhook_events.py:19-25 | when a claim succeeds, status by status: due for received and failed, also past its lease for processing, never otherwise |
| Webhooks.NextKeepsInvariant | app/services/webhook_events.py:17-74 | every call keeps the status bounds on attempts, a token for every lease, and tokens among those drawn |
| Webhooks.NoSecondClaimUnderALiveLease | app/services/webhook_events.py:19-31 | between two successful claims of an event the lease ran out or its holder finished |
| Webhooks.LeaseLastsSixtySeconds | app/services/webhook_events.py:13-31 | while a claim holds its event the next one succeeds exactly from sixty seconds after it on |
| Webhooks.QuarantineIsFinal | app/services/webhook_events.py:19-25 | no call ever changes a quarantined event |
| Webhooks.StaleTokenIsFenced | app/services/webhook_events.py:35-53 | a token whose lease was taken over or finished never again completes, fails or commits, and trying changes no row |
| Webhooks.ProcessedIsAbsorbing | app/services/webhook_events.py:24-25 | no later call changes any field of a processed row |
| Webhooks.EffectAtMostOnce | app/services/webhook_processing.py:17-28 | if the transaction is rolled back whenever the closing fence answers False, one event's effect is committed at most once over any run |
| Webhooks.EffectsAreAccounted | app/services/webhook_processing.py:17-28 | over every run the committed effects of an event are the transactions that passed the closing fence, at most one, and those kept although it answered False |
| Webhooks.EffectAtMostOnceExactlyIf | app/services/webhook_processing.py:17-28 | an effect is committed at most once exactly if none is kept after False, or a single one is and none passes the fence |
| Webhooks.DoubleEffectRun | app/services/webhook_processing.py:27-28 | concrete runs in which an effect is committed twice: the overtaken worker's, kept after False, before or after the rightful holder's |
| Webhooks.AttemptsMatchStatus | app/services/webhook_events.py:54-60 | processing has at least one attempt, failed one to four, dead letter at least five, so the backoff index is in range and its last slot is never read |
| Webhooks.FailsAreBounded | app/services/webhook_events.py:48-62 | between two redrives at most five fails take effect, however often lapsed leases are claimed again |
| Webhooks.RedriveBuysFiveClaims | app/services/webhook_events.py:65-74 | after a redrive the attempts are the claims since, so it is a dead letter again only after five further claims |
| Webhooks.NoClaimBeforeBackoff | app/services/webhook_events.py:21-22 | after a fail at attempt k < 5 no claim succeeds before the k-th backoff is over |
| Sessions.SessionStore.Issue | app/services/sessions.py:83-110 | a new session with a root token of a new family, expiring together |
| Sessions.SessionStore.Validate | app/services/sessions.py:113-135 | finds a session exactly if session, user and membership are active and agree with the claims, and the session has not expired |
| Sessions.SessionStore.Rotate | app/services/sessions.py:138-196 | rotated, rejected or replay, with the whole new state for each; after a rotation the returned string presents the row just minted |
| Sessions.SessionStore.Revoke | app/services/sessions.py:199-215 | a user's own session and its tokens are revoked, any other call changes nothing |
| Sessions.SessionStore.RevokeAll | app/services/sessions.py:218-230 | all sessions of the user and exactly their tokens are revoked |
| Sessions.RevocationLeaves | app/services/sessions.py:199-230 | row by row what a logout and a revoke-all stamp, and that they leave everything else alone |
| Sessions.NextKeepsChains | app/services/sessions.py:45-54 | every call keeps each family one parent chain whose only unconsumed token is the last |
| Sessions.NextKeepsInv | app/services/sessions.py:83-230 | every call keeps chains, the bijection of families and sessions, common revocation and common expiry |
| Sessions.RunKeepsInv | app/services/sessions.py:83-230 | so every reachable store has that shape |
| Sessions.RotatesAtMostOnce | app/services/sessions.py:149-175 | of any number of rotations of one token over a run at most one succeeds |
| Sessions.RotatesExactlyIfRedeemable | app/services/sessions.py:142-174 | in every reachable state a rotation succeeds exactly on a string that fits an unused row of a live, unexpired session whose user and membership stand, and is a replay exactly on a used row |
| Sessions.HandedOutIsPresented | app/services/sessions.py:45-54 | the string an issue or a rotation hands out stands for the unused row it minted |
| Sessions.HandedOutRotatesExactlyOnce | app/services/sessions.py:138-196 | round trip over runs: a string handed out rotates later exactly if it was not rotated before, nobody ended the session, it has not run out, and user and membership stand |
| Sessions.RotationExtendsTheChainByOne | app/services/sessions.py:175-183 | a rotation extends the chain of its family by exactly the token it hands out, which expires with the session |
| Sessions.ValidatesExactlyWhileAlive | app/services/sessions.py:113-135 | over runs: claims naming an issued session validate exactly if they are its own, nobody ended it, user and membership stand, and the lifetime is not over |
| Sessions.OneRedeemableToken | app/services/sessions.py:146-182 | of all tokens of one session at most one string can be redeemed at a time |
| Sessions.SessionDiesExactlyWhenKilled | app/services/sessions.py:149-230 | a session ends exactly at a replay in its family, its logout or a revoke-all of its user, and then all its tokens are revoked |
| Sessions.RevocationIsPermanent | app/services/sessions.py:149-175 | afterwards, whatever follows, no string rotates a token of that session and no claims naming it validate |
| Sessions.FamilyAndSessionRevokeTheSame | app/services/sessions.py:154-158 | the update by family and the update by session hit the same rows |
| Sessions.RejectionVersusReplay | app/services/sessions.py:142-194 | a rejected rotation leaves all tables alone, a replay commits exactly what a logout would |
| Sessions.SecondPresentationEndsSession | app/services/sessions.py:149-158 | presenting a rotated token again is always detected as a replay and ends the session |
| Sessions.FamilySharesItsSession | app/services/sessions.py:176-181 | the tokens of a family share one session, hence user, tenant and membership, and expire exactly with it |
| Messaging.Store.CreateSendIntent | app/services/send_intent.py:56-94 | queues a message, or answers a repeated key by the stored message, or refuses another body under the key |
| Messaging.Store.SendOutbound | app/services/send_intent.py:25-53 | queues a message; a key already used in the conversation rolls back |
| Messaging.Store.StartAttempt | app/services/message_attempts.py:13-23 | one more attempt of the message, its attempts stay numbered 1..n, those of other messages stay as they are |
| Messaging.Store.FinishAttempt | app/services/message_attempts.py:26-41 | fills in the outcome of that attempt and nothing else |
| Messaging.Store.DispatchQueued | app/services/message_dispatch.py:18-83 | fails without conversation, asset or adapter, cancels at the control fence, else rolls back or stores message and evidence as the reply says; the whole new state for each |
| Messaging.Store.ResolveUnknown | app/services/unknown_messages.py:18-62 | the receipt or the acknowledged resend, and each refusal |
| Messaging.Store.ApplyDelivery | app/services/message_status.py:13-27 | a report updates the one row it identifies, under the rank test, failures always |
| Messaging.Store.SetConversationMode | app/services/conversation_control.py:16-41 | leaves exactly the mode asked for at the next version, and for human cancels what the AI has queued |
| Messaging.Store.TakeoverConversation | app/services/conversation_control.py:44-53 | leaves the mode human, and hands the conversation over by the pending transfer if there is one |
| Messaging.Store.RequestHandoff | app/services/handoff.py:26-78 | a known trigger or a pending transfer answers the call; else the mode is handoff_pending, a new transfer waits, and the queue of the AI is cancelled |
| Messaging.Store.AcceptHandoff | app/services/handoff.py:81-109 | a pending transfer leaves the mode human and the conversation with its recipient, else with the caller |
| Messaging.ControlLeaves | app/services/conversation_control.py:28-53 | in every run: the mode each control step leaves, by how much the version rises, and whose the conversation is afterwards |
| Messaging.AiIsSilentUntilReactivated | app/services/message_dispatch.py:34-42 | from a takeover, a switch to human, a new transfer or an acceptance up to the next switch to active, no AI message of the conversation is handed to the provider, whenever it was queued |
| Messaging.RestrictedCallersTouchTheirOwn | app/services/conversation_control.py:26-27 | a restricted caller changes a conversation or its messages only if it is assigned to that caller, or unassigned when a transfer is accepted |
| Messaging.DispatchMirrorsTheReply | app/services/message_dispatch.py:51-80 | after a committed call the message and the recorded attempt say what the provider answered: unknown exactly after a timeout, failed exactly after an exception or a reported failure, else the status and id returned |
| Messaging.DispatchWithoutProvider | app/services/message_dispatch.py:22-47 | when dispatch stops short of the provider, and the one row it then changes |
| Messaging.UnknownExactlyIfTimedOut | app/services/unknown_messages.py:39-55 | over every run a message is unknown exactly if its last call timed out and nobody resolved it since |
| Messaging.ResolutionLeaves | app/services/unknown_messages.py:41-55 | a resolution leaves the message sent under the receipt's id, or queued again after an acknowledged resend |
| Messaging.ReportLeaves | app/services/message_status.py:14-24 | status by status what a report leaves of the message it identifies; every other message stays |
| Messaging.InsertionLeaves | app/services/send_intent.py:47-94 | what a queued message's row holds: conversation, channel, author, key, digest of the body |
| Messaging.DeniedExactlyIf | app/services/conversation_control.py:26-27 | a call is denied exactly to a restricted caller whose target exists and is somebody else's |
| Messaging.NotFoundExactlyIf | app/services/unknown_messages.py:30-36 | when a call misses its row, for every call |
| Messaging.RefusedExactlyIf | app/services/unknown_messages.py:39-55 | when a call is refused for what it asks, for every call |
| Messaging.RolledBackExactlyIf | app/models/crm.py:179 | when a constraint rolls a call back, for every call |
| Messaging.RunKeepsInv | app/services/message_dispatch.py:18-83 | in every reachable state: rows refer to rows, queued, unknown and cancelled messages carry no provider id, provider ids and keys are unique, at most one pending transfer a conversation, evidence agrees with the history |
| Messaging.MaxNumberIsCount | app/services/message_attempts.py:14-19 | with attempts numbered from one without gaps, the next number is one more than their count |
| Messaging.SendBudget | app/services/message_dispatch.py:48-83 | attempts plus one if queued never exceed one plus the acknowledged resends; attempts are 1..n and equal the metadata history; the provider was called once per attempt and per transaction lost after the call |
| Messaging.ProviderBudget | app/services/message_dispatch.py:62-69 | seen by the provider the same bound holds in all states up to a point exactly if no call for the message before returned an id that cannot be stored |
| Messaging.LossBreaksBudget | app/services/message_dispatch.py:62-69 | each such call exceeds the budget at once |
| Messaging.AutoReplySentTwice | app/models/crm.py:179 | the check on system authors refuses the id of an accepted auto-reply, so a run without any resend calls the provider twice for it |
| Messaging.OnlyResolveLeavesUnknown | app/services/unknown_messages.py:39-55 | a message leaves unknown exactly by a successful resolution |
| Messaging.KeyQueuesOnce | app/services/send_intent.py:72-94 | one idempotency key queues at most one message of a conversation over a run |
| Messaging.IntentReplay | app/services/send_intent.py:78-81 | a repeated intent changes nothing: the same body gets the stored message, another body a conflict |
| Messaging.EqualVersionsMeanNoControl | app/services/conversation_control.py:28-29 | equal control versions mean that no control step came in between and the mode never moved |
| Messaging.StampedMessageMeetsNoControl | app/services/message_dispatch.py:34-42 | a stamped AI message reaches the provider only in active mode and if control did not move since the stamp |
| Messaging.WithdrawnNeverSent | app/services/handoff.py:60-65 | an AI message queued at a takeover, a switch to human or a new transfer is cancelled and reaches the provider in no continuation |
| Messaging.RankDropsExactlyOnFailure | app/services/message_status.py:10-24 | an accepted message loses rank in a step exactly if a failure is reported for it |
| Messaging.RankClimbs | app/services/message_status.py:22-24 | without such a report, duplicated and reordered reports only raise the rank |
| Ordering.SortedIsUnique | app/core/pagination.py:58 | an increasing sequence is determined by its elements, so the ordered query has one answer |
| Pagination.PageIsPrefix | app/core/pagination.py:58-75 | a page is the first rows above its cursor; there is a next cursor exactly if there are more, and it leaves exactly those |
| Pagination.WalkIncreases | app/core/pagination.py:58-68 | while rows come and go, the concatenated pages are strictly increasing in (occurred_at, id) |
| Pagination.WalkInventsNothing | app/core/pagination.py:69-71 | every row returned was in the table when its page was requested |
| Pagination.WalkMissesNothing | app/core/pagination.py:63-75 | a completed walk returns every row above the first cursor that stayed in the table |
| Pagination.WalkReturnsExactlyOnce | app/core/pagination.py:54-76 | and returns it exactly once |
| Pagination.WalkOfConstantTable | app/core/pagination.py:58-76 | on an unchanging table the walk ends after the number of requests the rows need and its pages are the sorted rows |
| Pagination.EveryLimitWalksTheTable | app/core/pagination.py:55-56 | for every limit from 1 to 100, and any other limit is refused |
| Timers.TimerStore.CancelUnanswered | app/services/conversation_timers.py:81-89 | cancels exactly the pending timers of the trigger on the conversation and returns their number |
| Timers.TimerStore.ScheduleTimer | app/services/conversation_timers.py:112-134 | nothing for a rule with a pending timer; else one timer of the rule's version, the next activity version, and a deadline the rule's duration later |
| Timers.TimerStore.ScheduleUnanswered | app/services/conversation_timers.py:92-135 | the loop over the enabled rules of the trigger |
| Timers.TimerStore.Inbound | app/services/off_hours.py:88-89 | the timer steps of an inbound message |
| Timers.TimerStore.Outbound | app/services/message_dispatch.py:72-73 | the timer steps of an accepted outbound message |
| Timers.TimerStore.PublishEvent | app/services/domain_events.py:38-50 | exactly one more outbox row, under a free id, carrying the timer and due at once; the others unchanged |
| Timers.TimerStore.FireDue | app/services/conversation_timers.py:45-78 | the first due timers by (deadline, id) are fired with an outbox row or cancelled; returns the number fired |
| Timers.TimerStore.RelayOutbox | app/services/outbox_relay.py:21-51 | the first due rows by (created_at, id) are published or put off; returns the number published |
| Timers.AllScheduled | app/services/conversation_timers.py:107-134 | scheduling keeps pending timers exclusive and activity versions different, and adds only to the conversation |
| Timers.EachRuleGetsItsTimer | app/services/conversation_timers.py:92-135 | over every run a message gives each enabled rule of its trigger exactly one new timer unless one is pending, and every other rule none |
| Timers.CreatedTimer | app/services/conversation_timers.py:127-133 | every timer that appears in a run has the version of its rule then, a deadline of the message's instant plus the rule's duration, and the next activity version |
| Timers.MessageCancels | app/services/conversation_timers.py:81-89 | a message cancels exactly the pending timers of the other side of its conversation |
| Timers.FiringSettlesTheOldest | app/services/conversation_timers.py:53-76 | a call settles due timers by (deadline, id), and each fires exactly if its rule still runs in that version and the conversation is not closed |
| Timers.EqualVersionsMeanTheSameRule | app/services/conversation_timers.py:63 | equal rule versions mean the very same rule: it was neither edited nor deleted in between |
| Timers.FiresNoEarlierThanItsDuration | app/services/conversation_timers.py:54-76 | over every run a timer fires no earlier than its rule's duration after its message, and only while the rule is the very same, enabled, and the conversation not closed |
| Timers.NextKeepsInv | app/services/conversation_timers.py:45-135 | every call keeps exclusiveness, the rows of fired timers, and the agreement of rows and queue |
| Timers.PendingTimersExclude | app/services/conversation_timers.py:81-135 | no conversation has pending timers for both sides, nor two for one rule |
| Timers.LaterTimerHasHigherVersion | app/services/conversation_timers.py:122-127 | activity versions per conversation and rule rise strictly over a run |
| Timers.FiresOnce | app/services/conversation_timers.py:53-76 | a timer is fired at most once over a run |
| Timers.SettledStays | app/services/conversation_timers.py:53-87 | a fired or cancelled timer never changes again |
| Timers.FiredIffOneRow | app/services/conversation_timers.py:66-75 | a timer is fired exactly if one outbox row carries its id, and no other does |
| Timers.RowEnqueuedOnce | app/services/outbox_relay.py:30-49 | a row was taken by the queue exactly once if it is published, else never |
| Timers.RelayLeaves | app/services/outbox_relay.py:38-49 | a relay call leaves a row alone or counts an attempt on a due one: taken it is published, refused it waits 2, 4, 8, ..., 256 s |
| Timers.RelayTakesTheOldest | app/services/outbox_relay.py:30-36 | due rows are taken by (created_at, id) up to the limit |
| Timers.TimerEnqueuedAtMostOnce | app/services/outbox_relay.py:30-49 | end to end the queue takes at most one event of a timer over any run |
| Timers.RelayDelayNeverCapped | app/services/outbox_relay.py:45 | the delay doubles from attempt to attempt up to 256 s; the cap of 300 s never decides |
| Timers.DrainTakesPrefix | app/services/outbox_relay.py:30-36 | after k calls of a queue that takes everything, the first min(n, k * limit) due rows were enqueued in order and the others are due |
| Timers.DrainsInCeilCalls | app/services/outbox_relay.py:30-51 | n due rows are drained after ceil(n / limit) such calls and not before |
| Automation.Ledger.Claim | app/services/automation_ledger.py:13-38 | nothing while a lease runs, the stored row if it succeeded, else the row under the new token |
| Automation.Ledger.Finish | app/services/automation_ledger.py:41-51 | accepted exactly for the row's token and a final status |
| Automation.Ledger.Work | app/services/automation_dispatcher.py:100-123 | one turn of the loop: claim, handler, finish, and the entry it appends |
| Automation.Ledger.ExecuteActions | app/services/automation_dispatcher.py:94-124 | the loop gives, action by action, what each row and handler outcome call for, and touches no row after the cut |
| Automation.ExecutionLeaves | app/services/automation_dispatcher.py:99-123 | action by action what a call leaves in the row and in its results, for a success, a running lease and each outcome of the handler |
| Automation.ClaimLeaves | app/services/automation_ledger.py:17-38 | when a claim takes the row, status by status, and what it leaves |
| Automation.FinishLeaves | app/services/automation_ledger.py:45-51 | when a finish is accepted, and what it leaves |
| Automation.SuccessesAccounted | app/services/automation_ledger.py:24-25 | over every run a slot's successes are its reopenings plus one if its row is succeeded |
| Automation.HandlerSucceedsAtMostOnce | app/services/automation_dispatcher.py:100-123 | if no claim is finished twice, a handler succeeds at most once per action, and once exactly if the row is succeeded |
| Automation.FinishingTwiceRepeatsTheAction | app/services/automation_ledger.py:45-46 | finish tests the token and not the status: a run in which finishing one claim twice lets the handler succeed twice |
| Automation.ReplayReturnsTheStoredEntry | app/services/automation_dispatcher.py:107-109 | a later call that reaches a succeeded action returns the very entry of the first success and does not call the handler |
| Automation.CompletedExecutionReplays | app/services/automation_dispatcher.py:99-124 | once every action succeeded, each later call returns the same list and calls no handler |
| Automation.ResultsAreCutAfterTheFirstTimeout | app/services/automation_dispatcher.py:98-124 | one entry per action in order; shorter than the actions exactly if a handler before the last timed out, and then the last entry is unknown |
| Automation.EntriesNameTheirAction | app/services/automation_dispatcher.py:105-123 | an entry names its action and outcome exactly if the handler's result does not hide them under keys of its own |
| Automation.SucceededSendReadsQueued | app/services/automation_dispatcher.py:38-123 | a succeeded send, whose handler reports a status of its own, is entered as queued |
| Automation.ExecuteTouchesOnlyItsTurns | app/services/automation_dispatcher.py:99-120 | rows of actions after the cut and of other executions stay |
| Automation.NoSecondClaimUnderALiveLease | app/services/automation_ledger.py:26-27 | while a lease runs unfinished, a claim gets nothing and the dispatcher reports processing without calling the handler |
| Automation.SupersededTokenNeverFinishes | app/services/automation_ledger.py:45-46 | once the row was claimed again the earlier token never finishes anything there |
| Executions.ExecutionTable.Claim | app/services/automation_ledger.py:54-74 | the guards of the claim and the row under the new token |
| Executions.ExecutionTable.Complete | app/services/automation_ledger.py:77-89 | accepted exactly for the row's token, whatever its status |
| Executions.ExecutionTable.ScheduleRetry | app/services/automation_ledger.py:95-105 | partial for an unknown outcome; else failed or dead letter with the clamped backoff |
| Executions.ExecutionTable.Block | app/services/automation_actions.py:34-43 | a policy error marks the execution blocked and merges the reason into its result |
| Executions.ExecutionTable.Redrive | app/api/v1/automation_executions.py:72-88 | only failed and dead-lettered executions without an unknown action, and the old lease is dropped |
| Executions.ClaimByStatus | app/services/automation_ledger.py:58-66 | when a claim succeeds, status by status |
| Executions.RedriveByStatus | app/api/v1/automation_executions.py:77-84 | a redrive is refused exactly unless the execution failed and none of its actions is unknown |
| Executions.CallLeaves | app/services/automation_ledger.py:54-105 | field by field what each successful call leaves of its row, with the five backoffs; no other row changes |
| Executions.AttemptsCountClaims | app/services/automation_ledger.py:69 | attempts equal the successful claims of the run, redrives or not |
| Executions.NoSecondClaimUnderALiveLease | app/services/automation_ledger.py:61-62 | a second claim before the first lease ends comes only after a completion, a retry or a block |
| Executions.SupersededTokenNeverCompletes | app/services/automation_ledger.py:78-83 | after another claim or a redrive the earlier token completes nothing and changes nothing |
| Executions.SettledIsClosed | app/services/automation_ledger.py:63-64 | a success or block survives every claim and redrive unless somebody finishes it again |
| Executions.SecondCompletionReopens | app/services/automation_ledger.py:78-87 | the holder of the last token can overwrite any status; the execution is claimable again exactly if the new status allows it and its next attempt is due |
| Executions.NoClaimBeforeBackoff | app/services/automation_ledger.py:101-104 | after a failure put off at attempt n no claim succeeds before the n-th backoff is over, unless the execution is redriven in between |
| Executions.RetriesByAttempt | app/services/automation_ledger.py:101-104 | over every run the failures put off are those before the first claim and those after each of the first four claims |
| Executions.AtMostFourRetries | app/services/automation_ledger.py:101-104 | if none is put off before the first claim and at most one after each, an execution is put off at most four times in its life, across redrives |
| Executions.HoldersPutOffOnce | app/services/automation_ledger.py:95-105 | that is so if only holders of a claim put off |
| Executions.FiveRetriesRun | app/services/automation_ledger.py:95-105 | a run in which an execution nobody claimed is put off five times |
| Executions.RedriveBuysOneAttempt | app/services/automation_ledger.py:101-102 | a redriven dead letter gets one claim, and its next failure is a dead letter again |
| RateLimiter.InMemoryLimiter.CheckLimit | app/services/rate_limiter.py:44-52 | the pruning loop and the answer, with the whole new state |
| RateLimiter.AllowedExactlyWhenHistoryHasRoom | app/services/rate_limiter.py:47-52 | for a fixed window and whatever limits before, a call is allowed exactly if fewer than its limit allowed calls of the full history lie in (now - window, now] |
| RateLimiter.NoWindowHoldsMoreThanTheLimit | app/services/rate_limiter.py:47-52 | no interval of a window's length ever holds more allowed calls of a key than the highest limit asked for |
| RateLimiter.AllowedCallsAreSpaced | app/services/rate_limiter.py:47-52 | for the highest limit asked for, between an allowed call and the limit-th one after it lies a whole window |
| RateLimiter.DenialNamesTheWait | app/services/rate_limiter.py:49-50 | after a denial a later call of the same limit is allowed exactly from the limit-th last allowed call plus the window; if no earlier call had a higher limit, retry_after is less than a second off |
| RateLimiter.RetryAfterSuffices | app/services/rate_limiter.py:50 | a client that waits exactly retry_after seconds is let in exactly if the wait was at most a second or a whole number of seconds |
| RateLimiter.RetryCanComeTooEarly | app/services/rate_limiter.py:50 | a run in which it is denied again |
| RateLimiter.CrashesExactlyWithoutPositiveLimit | app/services/rate_limiter.py:49-50 | a call of the highest limit so far reads from an empty queue exactly if that limit is not positive |
| RateLimiter.OtherKeysAreUntouched | app/services/rate_limiter.py:46 | keys do not influence each other |
| BusinessHours.IsWithinBusinessHours | app/services/business_hours.py:17-30 | True exactly if a window of the weekday whose ends both parse contains the time of day |
| BusinessHours.NextBusinessOpening | app/services/off_hours.py:22-35 | the first opening after the instant on any later day, None exactly if there is none |
| BusinessHours.EightDaysSuffice | app/services/off_hours.py:24 | a search of eight days without an opening means that there never is one |
| BusinessHours.NextOpeningIsFirstOpenInstant | app/services/off_hours.py:22-35 | from a closed instant no instant before the answer is within hours, and with no answer none ever is; for accepted settings the answer itself is within hours |
| BusinessHours.NoneExactlyWithoutWindows | app/services/off_hours.py:35 | None exactly if no weekday has a window that opens |
| BusinessHours.NextOpeningIsUnique | app/services/off_hours.py:27-34 | the declarative answer is unique, whatever the order of the windows |
| BusinessHours.NeighbourCheckIsDisjointness | app/api/v1/settings.py:41-47 | for windows that close after they open, the check on sorted neighbours holds exactly if no instant lies in two windows |
| BusinessHours.AcceptedIsSound | app/api/v1/settings.py:25-29 | in accepted settings every window that opens closes later on its day |
| BusinessHours.AnswersAreOpenExactlyIfCovered | app/services/off_hours.py:28-34 | for any hours, all answers of the search are within hours exactly if on every weekday each opening lies in some window of the day |
| BusinessHours.OpeningWithoutClosing | app/services/off_hours.py:28-32 | the search asks for no closing: a week, not one of accepted settings, whose answer is an instant at which nothing is open |
| Tokens.PaddingIsMissingLength | app/core/tokens.py:36-41 | padded base64url is the unpadded form of RFC 7515 followed by -len mod 4 equals signs |
| Tokens.AlphabetInOrder | app/core/tokens.py:36-37 | the url-safe alphabet by its corners and its order; section 5 of RFC 4648 |
| Tokens.GroupIsBigEndian | app/core/tokens.py:36-37 | a group of characters spells the number of its bytes, first byte highest, filled up with zero bits |
| Tokens.PaddingUndoesStripping | app/core/tokens.py:36-41 | stripping gives the unpadded form and re-padding by -len mod 4 restores the padded one |
| Tokens.DecodeUndoesEncode | app/core/tokens.py:36-41 | every byte string comes back; section 5 of RFC 4648 |
| Tokens.EncodeIsInjective | app/core/tokens.py:36-37 | no two byte strings share an encoding |
| Tokens.CanonicalExactlyIfEncoded | app/core/tokens.py:81-85 | a segment passes the check exactly if it is the encoding of some byte string; section 3.5 of RFC 4648 |
| Tokens.CanonicalExactlyIfWellSpelled | app/core/tokens.py:81-85 | equivalently: url-safe characters only, no lone last character, no stray bits in the last one |
| Tokens.OneSpelling | app/core/tokens.py:81-85 | every byte string has exactly one accepted spelling |
| Tokens.LenientSpellings | app/core/tokens.py:40-41 | the decoder alone accepts other spellings, with stray bits or foreign characters |
| Tokens.JoinUndoesSplit | app/core/tokens.py:80 | splitting at dots loses nothing and leaves no dot |
| Tokens.SplitUndoesJoin | app/core/tokens.py:73-80 | dot-free segments are recovered from the joined text; section 7.1 of RFC 7515 |
| Tokens.OpensExactlyIfIssued | app/core/tokens.py:71-91 | a token opens to a header and payload exactly if it is the one issued for them: one accepted spelling per token |
| Tokens.Refusals | app/core/tokens.py:79-91 | which error a token that is not opened gets: by the number of segments, the first bad segment, or the signature |
| Pagination.PageOrLater | app/core/pagination.py:63-75 | a row above the cursor is on the page or above the next cursor |
| Kpi.ResponseWindows.OpenResponseWindow | app/services/kpi.py:16-21 | opens a window under the drawn id only if none is open, and returns the open one |
| Kpi.ResponseWindows.CloseResponseWindow | app/services/kpi.py:24-72 | an event and a closed window exactly if the message qualifies and a window is open |
| Kpi.WindowIsOpenExactlyIfUnanswered | app/services/kpi.py:16-21 | a window is open exactly if an inbound message is unanswered in the trace, and is dated from the first such |
| Kpi.EventsAreTheAnswers | app/services/kpi.py:30-72 | the events of any run are exactly one per qualifying reply to an unanswered inbound message, in order, dated from the first such message |
| Kpi.ReplyIsRecordedExactlyIfItAnswers | app/services/kpi.py:30-68 | for one reply: recorded exactly if it qualifies and a message waits, with all fields of the event |
| Kpi.RecordedEvent | app/services/kpi.py:32-67 | the event of a reply in terms of the message and the two instants: whole milliseconds between them and not below zero, who answered, and whether the AI resolved it |
| Kpi.OthersRecordNothing | app/services/kpi.py:30-37 | any other message records nothing and changes nothing |
| Kpi.OpenedAreAnsweredOrOpen | app/services/kpi.py:16-72 | windows opened on a conversation are its events plus one if a window is open |
| Kpi.WindowIdsNeverRepeat | app/services/kpi.py:18-60 | all window ids of events and open windows are different |
| Percentiles.BetweenMinimumAndMaximum | app/services/kpi.py:75-82 | the percentile lies between the least and the greatest value |
| Percentiles.NondecreasingInThePercentile | app/services/kpi.py:79-82 | it never falls as the percentile rises, also across positions |
| Percentiles.OrderStatistic | app/services/kpi.py:79-82 | at k / (n - 1) it is the k-th entry of the sorted values |
| Percentiles.Interpolation | app/services/kpi.py:79-82 | at (k + f) / (n - 1) it is (1 - f) times the k-th entry of the sorted values plus f times the next |
| Percentiles.EveryPercentileInterpolates | app/services/kpi.py:79-82 | every percentile of at least two values is of that form |
| Percentiles.Median | app/services/kpi.py:109 | the median is the mean of the two middle values, or the middle one |
| Percentiles.KthValue | app/services/kpi.py:78 | of the unsorted values at most k are smaller than that entry and more than k are not greater |
| Percentiles.OrderDoesNotMatter | app/services/kpi.py:78 | it does not depend on the order of the input |
| RoundRobin.Rotation.NextAgent | app/services/round_robin.py:10-32 | None exactly without agents; else the agent after the last one, which continues the picks from an unchanged list |
| RoundRobin.PickIsNextHigherOrLowest | app/services/round_robin.py:25-30 | the pick is the next higher id after the agent assigned last, else the lowest |
| RoundRobin.PicksGoRound | app/services/round_robin.py:25-30 | after n calls the next place is n steps on, round and round |
| RoundRobin.CountByRounds | app/services/round_robin.py:25-30 | an agent's picks are the rounds completed plus one if the current round has passed it |
| RoundRobin.ConsecutivePicksAreAPermutation | app/services/round_robin.py:25-30 | any n consecutive picks among n agents take each exactly once |
| RoundRobin.CountsDifferByAtMostOne | app/services/round_robin.py:25-30 | after any number of calls from any state two agents' counts differ by at most one |
| RoundRobin.OnlyListedAgents | app/services/round_robin.py:25-30 | nobody outside the list is picked |

## Left out

- HTTP routers, schemas, workers, logging, metrics, audit rows: plumbing around the steps. Of the routers only the
  window validators and the redrive of an execution are modelled.
- More than one tenant: every query of the modelled functions is scoped by tenant, so one tenant's rows are one
  state.
- Isolation levels, `skip_locked` and deadlocks: a service function is one atomic step, except the webhook effect,
  which is two. Unique indexes appear as rollbacks (Messaging) or as invariants.
- A crash between an enqueue and the commit of the relay's transaction: the relay is one step, so the model does
  not show that the queue can get a row again after such a crash.
- The optional enqueue callback of `fire_due_timers`: the outbox row is what is modelled.
- Hashing, keyed hashing and JSON: digests are injective, the keyed hash of the token is a parameter, the claims
  inside the payload and the cursor's text are not modelled. Refresh strings are malformed or an id with a secret.
- Time zones and daylight saving: instants are local wall-clock time, and window texts are parsed times or nothing.
  Texts that are not times sort before all others here, which is harmless since both functions skip them.
- Floating-point rounding: limiter times and percentiles are reals; elapsed milliseconds are truncated exactly.
- The consent check of `send_outbound_message`, contact merge and purge, campaigns, onboarding, custom fields,
  billing, token budget: record edits or one-step checks.
- The Redis limiter: its script runs elsewhere, on whole-second server time.
- The metric percentages over response windows: divisions of counts.
- `channel`, `campaign_id`, `ai_model` and `responder_user_id` of a response event: copied columns.
- Messaging.Store.ApplyDelivery: an unsupported status is one case (`None`), not a text.
- Messaging.Store.RequestHandoff: the reason text and the missing-tenant error are not modelled.
- Percentiles.BetweenMinimumAndMaximum: percentiles outside [0, 1] are not modelled; the source only asks for 0.5
  and 0.9.
- RateLimiter.AllowedExactlyWhenHistoryHasRoom: asks for one window per key, as the callers have it; a key used
  with several windows loses history that a longer one would need.
- RateLimiter.RetryAfterSuffices: asks that no earlier call on the key had a higher limit; after a plan is lowered
  more than `limit` calls can be live, and `retry_after` names an instant at which there is no room yet.
- Automation.HandlerSucceedsAtMostOnce: asks that no claim is finished twice; `Automation.SuccessesAccounted` says
  what holds without it.
- Executions.AtMostFourRetries: asks that a claim is put off at most once and nothing before the first one;
  `Executions.RetriesByAttempt` says what holds without it.
- Executions.NoClaimBeforeBackoff: asks that nobody redrives the execution, which is what a redrive is for.
