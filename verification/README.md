# Verified model of the Eccos gateway

The gateway Worker of Eccos sits between WhatsApp businesses and Meta's Cloud API. It keeps its promises
with four state machines that share SQLite tables inside Durable Objects: the send engine (scheduled sends,
broadcasts, idempotency keys, one alarm), the provisioning saga of a WhatsApp Business Account (WABA), the
conversation store with its history imports and erasure, and the hold of webhooks that arrive before a WABA
is active. This project models each of them and proves what its comments promise.

## How the model is built

Code inside a Durable Object runs to the next `await` without interruption, and other calls may land at
every `await`. So each state machine is a `State` datatype, one pure function for every stretch of code
without an `await`, a `Step` datatype naming those stretches with whatever the outside world decides (Meta's
answer, the rate limiter, a lost response, a death of the process), and runs as sequences of possible steps.
Invariants are proved step by step; main results are about every run. Logs of the calls made to Meta are part
of the state, so "at most once" is a statement about that log.

Beside each specification stands a class with the real tables as fields, whose methods update them in place,
with the source's branches and loops, and are proved to do what the specification says. Ghost fields hold the
continuations in flight and the logs. What an operation owes is also said without its specification, case by case
over the tables before and after it, and every method is proved to keep that too.

| file | what it models |
|---|---|
| `core.dfy` | optional values, times |
| `meta_send.dfy` | Meta's answers to a send, failure verdicts, throttle and pace arithmetic |
| `scheduled.dfy`, `scheduled_requests.dfy`, `scheduled_store.dfy` | scheduled sends |
| `broadcast_request.dfy` | the recipients of a broadcast request |
| `broadcasts.dfy`, `broadcast_outcomes.dfy`, `broadcast_store.dfy`, `broadcast_pace.dfy`, `broadcast_throws.dfy` | one broadcast and its ticks |
| `send_keys.dfy` | idempotency keys of single sends |
| `alarm.dfy` | one alarm for five kinds of work |
| `coexistence.dfy` | what a WABA onboarded from the WhatsApp Business app owes Meta |
| `provisioning.dfy`, `provisioning_rows.dfy`, `provisioning_outcome.dfy`, `provisioning_evidence.dfy`, `provisioning_spans.dfy` | the provisioning saga of one WABA |
| `control_plane.dfy` | the control plane's tables |
| `held.dfy` | held webhooks, and the handshake that releases them |
| `sync_payloads.dfy` | resumable processing of raw sync payloads |
| `conversations.dfy`, `conversation_writes.dfy`, `conversation_store.dfy`, `conversation_contacts.dfy` | the conversation and contact tables |
| `conversation_history.dfy`, `conversation_rebuild.dfy`, `rebuild_queue.dfy`, `conversation_status.dfy` | what those tables come to |
| `erasure.dfy`, `erasure_lasting.dfy` | right to erasure |

## Where the code does not keep its comments' promise

For each of these one lemma gives a run from the start that breaks the promise, and another says exactly when
it holds.

- A scheduled send whose row is erased while its request to Meta is in flight, and put again under the same
  key, can be sent twice, but only when another send of its tick throws. `Promise.all` rejects at the first
  throw and the step ends (apps/gateway/src/gateway.ts:1556-1565 and 1616), so the next alarm can claim the new
  row while the old send is still on its way (`Scheduled.ErasedSendRepeats`, `Scheduled.OnlyStraySendsRepeat`).
  Without a throw an erasure is safe at any time.
- A scheduled send that throws between the settle that ends its row as failed or unknown and the event, two
  writes that no transaction joins (apps/gateway/src/gateway.ts:1732-1736), leaves a row that has ended and no
  `scheduled_failed`, and nothing later makes up for it (`Scheduled.RefusedWithoutEvent`,
  `Scheduled.OneEventPerFailure`).
- A scheduled send that outlived its tick because another one threw, and is accepted after a later tick swept its
  row as unknown, leaves the row unknown and the message id unstored: the settle asks for a row still `sending`
  (apps/gateway/src/gateway.ts:1685-1700) (`Scheduled.AcceptedAfterTheSweep`,
  `Scheduled.SentExactlyWhenAccepted`).
- A broadcast tick that dies between an answer that should halt the broadcast, such as a revoked token, and its own
  end loses the answer, and the next tick goes on to the other recipients (`BroadcastOutcomes.DeathLosesTheHalt`,
  `BroadcastOutcomes.HaltIsLostOnlyByDeath`).
- A broadcast send that throws ends its tick while the tick's other sends go on. One of them that is throttled
  after a later tick swept its row as unknown puts the row back in the queue of a broadcast that may have
  completed (`BroadcastThrows.CompletedWithSomebodyQueued`, `BroadcastThrows.EndingHoldsExactly`). A sweep comes
  after a minute and a call to Meta is given up after 15 seconds, so the send's rate check must have been slow.
- The throw also skips the sweep that ends a tick, so a broadcast cancelled meanwhile keeps what came back to its
  queue (`BroadcastThrows.ThrowSkipsTheSweep`, `BroadcastThrows.ThrowLeavesNobodyOpen`).
- A broadcast cancelled while the token lookup of its tick is running keeps queued recipients for ever when
  that lookup fails (`Broadcasts.CancelDuringLookupLeavesQueued`, `Broadcasts.TickLeavesNobodyOpen`).
- Below 15 messages a minute a throttled tick of a broadcast pauses for less than its own tick, and the next
  one starts early (`BroadcastPace.SlowRatesCanBreakPace`, `BroadcastPace.PaceHoldsFrom15AMinute`).
- A send that stores its answer after its key was claimed again answers the other request
  (`SendKeys.LateSettleAnswersAnotherRequest`, `SendKeys.AnswersAreRightExactly`).
- A held batch whose `hold` dies between its insert and its arming has no alarm (`Alarm.HeldBatchWithoutAlarm`,
  `Alarm.WorkIsArmedExactly`).
- By the wall clock, a worker still calling when its customer is onboarded again can repeat a once-only sync of
  the new registration (`ProvisioningOutcome.LateWorkerRepeats`,
  `ProvisioningSpans.RegistrationAsksOnceExactlyWhen`); under one mark it cannot.
- A sharing refusal that Meta reports before the history request was made leaves a WABA whose status is settled
  while the saga may still issue the request (`ProvisioningSpans.SettledYetOutstanding`,
  `Coexistence.OutstandingIsPending`).
- A WABA with one request unanswered and the other sync never started still counts as one that owes a sync, which
  the comment rules out (apps/gateway/src/coexistence.ts:331-337). Only the order of the saga's questions keeps it
  from asking again (`ProvisioningSpans.SpentYetOutstanding`, `Coexistence.SpentIsOutstandingExactly`).
- In a sync payload, items after a history-sharing refusal in the same wake are passed over while the cursor
  moves past them (`SyncPayloads.SkippedAfterRefusal`, `SyncPayloads.OldestIsThePrefix`,
  `SyncPayloads.AppliedIsThePrefix`).
- A rebuild of the history from the raw payloads does not replay status callbacks onto history rows, so a row
  that a callback moved goes back (`ConversationRebuild.RebuildDropsACallback`,
  `ConversationRebuild.RebuildYieldsTheFirstPass`).
- Moving a BSUID from one phone to another leaves earlier messages with the first
  (`ConversationHistory.PairedTwiceMisfiles`, `ConversationHistory.RepairingBreaksFiling`).

And one promise is arithmetic: at one message a minute a broadcast's pace uses all of the account's rate instead
of 80% of it, from two on it does not (`MetaSend.PaceStaysInShare`).

## Model

| member | source | states |
|---|---|---|
| `MetaSend.VerdictOf` | apps/gateway/src/broadcasts.ts:185-198 | the engines act on a failure as "not sent" exactly when Meta answered with a 300-499 status; every other failure may have been delivered |
| `MetaSend.VerdictsByCode` | apps/gateway/src/broadcasts.ts:179-198 | which answers are lost, which throttles, and which halt a broadcast, by status and code: a lost answer counts as lost whatever its code, and 429 as a throttle before any halting code |
| `MetaSend.ThrottleDelayMs` | apps/gateway/src/broadcasts.ts:200-203 | every wait after a throttled attempt is between 5 seconds and 5 minutes, and the first is 5 seconds |
| `MetaSend.ThrottleDelayDoubles` | apps/gateway/src/broadcasts.ts:200-203 | each throttled attempt doubles the wait, up to five minutes |
| `MetaSend.ThrottleDelayGrows` | apps/gateway/src/broadcasts.ts:200-203 | a recipient that keeps being throttled never waits less than before |
| `MetaSend.Pacing` | apps/gateway/src/broadcasts.ts:209-213 | a pace sends at least one message a tick and ticks at most once a second |
| `MetaSend.PaceStaysInShare` | apps/gateway/src/broadcasts.ts:205-213 | in both branches of the pacing a broadcast stays within 80% of the account's rate, exactly for rates of two a minute and up |
| `MetaSend.PaceIsTheFastest` | apps/gateway/src/broadcasts.ts:205-213 | with the tick, or the sends of a tick, as they are, no pace of whole sends and whole milliseconds is faster within the share |
| `MetaSend.TickFitsThrottlePause` | apps/gateway/src/broadcasts.ts:200-213 | the shortest throttle pause is no shorter than a tick exactly from 15 messages a minute |
| `Scheduled.ParseTimes` | apps/gateway/src/scheduled.ts:68-83 | accepted times are at most 90 days ahead with an expiry after the send time and now and at most 7 days later; each refusal is given exactly when its limit is the first broken |
| `Scheduled.ScheduledSendsAreAtMostOnce` | apps/gateway/src/gateway.ts:1583-1737 | over every run in which no send throws, erasures in mid-send included, each row has at most one call that may have reached the customer, all others were definitely refused; a row is sent, with a message id, exactly when Meta accepted a call for it with that id; the due index hides no expired row; open rows stay within 50,000 |
| `Scheduled.ThrowsKeepAtMostOnce` | apps/gateway/src/gateway.ts:1556-1616 | with throwing sends at-most-once, the due index and the bound hold, and a sent row has an accepted call, while no throw leaves the send of an erased row behind |
| `Scheduled.OnlyStraySendsRepeat` | apps/gateway/src/gateway.ts:1556-1616 | a step keeps at-most-once in every later run, at whatever pace of ticks, if and only if it is no throw that leaves the send of an erased row behind and no erasure of a row whose send an earlier throw left behind |
| `Scheduled.ErasedSendRepeats` | apps/gateway/src/gateway.ts:1611-1658 | from the empty table, with ticks a second apart: two sends in one tick, one row erased, the other send throws, the row is put again and can be sent twice |
| `Scheduled.WithoutThrowsNothingStrays` | apps/gateway/src/gateway.ts:1616 | while no send throws, every send in flight belongs to the tick in progress, whatever is erased |
| `Scheduled.StepIsSafe` | apps/gateway/src/gateway.ts:1626-1737 | every stretch of the scheduled engine keeps the at-most-once invariant, under cancels, replaced requests, rate refusals, sweeps, erasures, throws and crashes; only a claim asks that no send of an erased row outlived its tick |
| `Scheduled.StepKeepsDueIndex` | apps/gateway/src/scheduled.ts:212-288 | every write keeps a pending row's next attempt no later than its expiry |
| `Scheduled.StepKeepsBound` | apps/gateway/src/scheduled.ts:212-243 | pending and sending rows never pass 50,000 |
| `Scheduled.ExpiryPassMissesNothing` | apps/gateway/src/scheduled.ts:262-273 | after the expiry pass no pending row is past its expiry, although the pass looks only at due rows |
| `Scheduled.SentExactlyWhenAccepted` | apps/gateway/src/gateway.ts:1677-1706 | throughout a run in which no throw leaves the send of an erased row behind, a row is sent, with a message id, exactly when Meta accepted a call for it with that id, if and only if no send that outlived its tick is accepted after a sweep ended its row |
| `Scheduled.StepKeepsSentExactly` | apps/gateway/src/gateway.ts:1685-1706 | the same for one step |
| `Scheduled.AcceptedAfterTheSweep` | apps/gateway/src/gateway.ts:1685-1700 | a run from the empty table: one send throws, the other calls late, its row is swept as unknown, and its acceptance is lost |
| `Scheduled.SentMeansAccepted` | apps/gateway/src/gateway.ts:1677-1706 | in such runs, late acceptances included, a row names a message exactly when it is sent, and then Meta accepted one of its calls with that id |
| `Scheduled.StepEmitsExactly` | apps/gateway/src/gateway.ts:1618-1736 | a step emits one `scheduled_failed`, naming the row's customer and reason, if it ends the row as failed or unknown, and none otherwise, exactly when it is no throw between the settle and the event |
| `Scheduled.OneEventPerFailure` | apps/gateway/src/gateway.ts:1594-1736 | over every run, whatever is erased or throws, there are as many events for a key as times its row ended without a send, if and only if no send of it throws between that settle and the event; each such throw loses one event for good |
| `Scheduled.RefusedWithoutEvent` | apps/gateway/src/gateway.ts:1732-1736 | a run from the empty table: refused by Meta, the send throws once its row has been settled; the row has failed and there is no event |
| `ScheduledRequests.RowsCarryTheLastPut` | apps/gateway/src/scheduled.ts:211-243 | over every run, throws and erasures included, a row asks for what the last PUT of its key that was taken asked for: phone, recipient, template, values and times; its values stay until it ends and are gone then |
| `ScheduledRequests.CallsCarryTheLastPut` | apps/gateway/src/gateway.ts:1632-1676 | over every run one step makes calls, one at a time, and each call carries what the last PUT taken before the claim of its send asked for |
| `ScheduledRequests.CallsKeepTheirTimes` | apps/gateway/src/gateway.ts:1626-1676 | while clocks do not go back, no call leaves before the time its row was asked for, or once the row has expired, whatever is postponed, refused, throttled or claimed between |
| `ScheduledRequests.CancelledIsNeverSent` | apps/gateway/src/scheduled.ts:245-260 | from any state on, once a cancel is answered cancelled no call leaves for the key until another PUT of it is taken |
| `ScheduledRequests.PutKeepsItsWord` | apps/gateway/src/scheduled.ts:211-243 | a PUT is not taken exactly for a row that may have left or past 50,000 open rows; taken, the row waits with exactly the request, its values and its time, and no attempt spent; nothing else changes |
| `ScheduledRequests.AnswerKeepsItsWord` | apps/gateway/src/gateway.ts:1677-1737 | sent with its id on an acceptance; waiting again, values kept, on a throttle before the eighth attempt; unknown on a lost answer and failed on any other refusal, each with one event and no values |
| `ScheduledStore.Store.UpsertScheduled` | apps/gateway/src/scheduled.ts:211-243 | says which of the four cases it met, by the row it found and the number open; created or replaced, the row under the key waits for exactly what was asked, values and time included, with no attempt spent; sending, sent and unknown rows and all other rows stay as they are |
| `ScheduledStore.Store.CancelScheduled` | apps/gateway/src/scheduled.ts:245-260 | cancels a pending row only, dropping its values, touches no other row, and says which case it found |
| `ScheduledStore.Store.EndStaleAndExpired` | apps/gateway/src/gateway.ts:1583-1585 | row by row: a row sending for over a minute ends as unknown, a due one past its expiry as failed, each with one event and no values, and every other stays; no pending row past its expiry is left |
| `ScheduledStore.Store.PostponeDue` | apps/gateway/src/gateway.ts:1594-1606 | without a token every due row waits half a minute or until its expiry, with no attempt spent, and no other row changes |
| `ScheduledStore.Store.ClaimDue` | apps/gateway/src/scheduled.ts:290-302 | claims at most the tick's share of due rows, earliest first; each has one send that carries it, and no other row changes |
| `ScheduledStore.Store.AfterRateCheck` | apps/gateway/src/gateway.ts:1638-1676 | refused, the row waits five seconds or until its expiry with no attempt spent; allowed, Meta is called exactly for a row still sending and not expired, and an expired one fails with one event |
| `ScheduledStore.Store.AfterAnswer` | apps/gateway/src/gateway.ts:1677-1737 | settles a row still sending by Meta's answer: sent, waiting again after a throttle, unknown or failed, with the event and the values each case has; a row gone or ended stays as it is |
| `ScheduledStore.Store.DeleteRow` | apps/gateway/src/gateway.ts:2088-2096 | an erasure, in mid-send too, removes the row and keeps the engine's invariant unless a send of it outlived its tick |
| `BroadcastRequest.ParseRecipients` | apps/gateway/src/broadcasts.ts:105-153 | accepts a request exactly when it has 1 to 10,000 entries and each names a recipient with values that are absent or fit; then keeps one recipient for each customer, as the first entry that names it asks, its own values included, in the order of the entries; else reports up to 100 positions with what is wrong there |
| `BroadcastRequest.ReportNamesBadEntries` | apps/gateway/src/broadcasts.ts:121-146 | a request is refused for its entries exactly when one is bad, and the report names bad positions only |
| `BroadcastRequest.RecipientsAreTheCustomers` | apps/gateway/src/broadcasts.ts:121-146 | the recipients are exactly the customers named |
| `BroadcastRequest.RecipientsAreDistinct` | apps/gateway/src/broadcasts.ts:117-146 | no two recipients are the same customer, however written |
| `BroadcastRequest.FirstWritingWins` | apps/gateway/src/broadcasts.ts:100-104 | a customer is kept as first written |
| `BroadcastRequest.KeyOfKey` | apps/gateway/src/broadcasts.ts:67-72 | the key of a key is itself, so keys compare customers |
| `BroadcastRequest.KeysTellCustomersApart` | apps/gateway/src/broadcasts.ts:69-72 | two phones have one key exactly when their digits agree, and a BSUID is its own key and no phone's |
| `BroadcastRequest.WhoIsARecipient` | apps/gateway/src/broadcasts.ts:63-67 | a recipient is a BSUID, or has 5 to 15 digits and nothing else but separators and a leading plus; bare digits, with a plus or without, are one exactly when there are 5 to 15 |
| `BroadcastRequest.FirstsAreKept` | apps/gateway/src/broadcasts.ts:117-146 | the positions kept are those where a customer is named first, in order, and each recipient is as its entry asks |
| `Broadcasts.NobodyIsMessagedTwice` | apps/gateway/src/gateway.ts:1757-1916 | over every run, no recipient key gets two calls that may have delivered |
| `Broadcasts.AcceptedRequestReachesNobodyTwice` | apps/gateway/src/broadcasts.ts:100-153 | the same from the request on, whatever repeated or reformatted entries it has |
| `Broadcasts.StepIsSafe` | apps/gateway/src/gateway.ts:1757-1916 | every stretch of a tick keeps the once-per-recipient invariant |
| `Broadcasts.RunsAddUp` | apps/gateway/src/gateway.ts:1862-1970 | over every run the six counts and the erased add up to the request, a message id is set exactly on sent rows, and completed means every row is sent, failed or unknown |
| `Broadcasts.CountsAddUp` | apps/gateway/src/broadcasts.ts:261-296 | the six status counts partition the recipients |
| `Broadcasts.EndedNeverRunsAgain` | apps/gateway/src/gateway.ts:1934-1955 | an ended broadcast keeps how it ended and claims nobody |
| `Broadcasts.DeadRunIsNeverResumed` | apps/gateway/src/gateway.ts:1762-1771 | recipients a dead run left sending are never claimed or called again |
| `Broadcasts.TickLeavesNobodyOpen` | apps/gateway/src/gateway.ts:1815-1831 | after a tick a cancelled or halted broadcast has nobody queued or sending, if and only if no earlier run died mid-send and no token lookup failed after the end |
| `Broadcasts.CancelDuringLookupLeavesQueued` | apps/gateway/src/gateway.ts:1800-1807 | a run from the request on: cancelled during a lookup that then fails, a broadcast is stopped with a recipient queued |
| `BroadcastOutcomes.HaltingAnswerHalts` | apps/gateway/src/gateway.ts:1811-1831 | after an answer with an error that no recipient can escape, no run whose tick lives to its end claims anybody again; once the tick is over the broadcast has ended and nobody is queued |
| `BroadcastOutcomes.HaltIsLostOnlyByDeath` | apps/gateway/src/gateway.ts:1817-1820 | step by step: what a tick met that halts the broadcast is lost exactly when the tick dies |
| `BroadcastOutcomes.DeathLosesTheHalt` | apps/gateway/src/gateway.ts:1811-1820 | a run from the request on: the token is revoked, the tick dies, and the next one claims another recipient |
| `BroadcastOutcomes.SentExactlyWhenAccepted` | apps/gateway/src/gateway.ts:1862-1905 | over every run from the request on, a recipient not erased is reported sent with an id exactly when Meta accepted a call for it with that id |
| `BroadcastOutcomes.SettledMeans` | apps/gateway/src/gateway.ts:1861-1905 | what each answer makes of the recipient and of the tick, by status and code |
| `BroadcastOutcomes.FinishKeepsItsWord` | apps/gateway/src/gateway.ts:1815-1831 | the end of a tick halts exactly on a halting outcome or when nobody was sent and 20 failed; completes exactly when it goes on with nobody open; waits for the longest throttle; cancels the queue of a broadcast that ended |
| `BroadcastStore.Store.constructor` | apps/gateway/src/gateway.ts:1387-1442 | stores exactly one queued row for each recipient, due now, with no call made |
| `BroadcastStore.Store.StartTick` | apps/gateway/src/gateway.ts:1762-1771 | rows sending for over a minute end as unknown, and no other row changes |
| `BroadcastStore.Store.ClaimDue` | apps/gateway/src/gateway.ts:1773-1799 | waits when it is not due or its share is used up, and asks for the next tick in the second case; else claims the queued recipients with the lowest numbers, as many as fit the share left, and completes when nobody is open |
| `BroadcastStore.Store.Requeue` | apps/gateway/src/gateway.ts:1907-1916 | puts back exactly the rows still sending |
| `BroadcastStore.Store.AfterTokenLookup` | apps/gateway/src/gateway.ts:1800-1807 | with a token each claimed recipient has one send with the attempts it had; without a WABA the broadcast halts and queued and claimed are cancelled; after a failed lookup the claimed are queued again and wait half a minute |
| `BroadcastStore.Store.AfterRateCheck` | apps/gateway/src/gateway.ts:1839-1860 | a refused rate check queues the recipient again with its attempts as they were and calls nobody; an allowed one calls Meta for that recipient once |
| `BroadcastStore.Store.AfterMetaAnswer` | apps/gateway/src/gateway.ts:1861-1905 | settles the recipient by Meta's answer unless it was erased: sent with its id, queued again on a throttle with attempts left, unknown on a lost answer, else failed; and tells the tick to halt exactly on a halting code |
| `BroadcastStore.Store.FinishTick` | apps/gateway/src/gateway.ts:1815-1831 | a running broadcast halts exactly when an outcome of the tick is a halt, or nobody is sent and 20 or more have failed, and then nobody is queued; else it completes exactly when nobody is open and waits for the longest throttle; one cancelled meanwhile keeps how it ended and queues nobody |
| `BroadcastStore.Store.Cancel` | apps/gateway/src/gateway.ts:1494-1499 | stops a running broadcast, keeps how any other ended, and cancels exactly who is queued |
| `BroadcastStore.LongestThrottle` | apps/gateway/src/gateway.ts:1820-1822 | the pause asked for covers every throttled send of the tick |
| `BroadcastStore.LowestOf` | apps/gateway/src/gateway.ts:1784-1795 | picks the lowest numbers, as many as fit |
| `BroadcastPace.PaceHoldsFrom15AMinute` | apps/gateway/src/gateway.ts:1773-1825 | in every run, ticks that send start at least `tickMs` apart and send at most `perTick`, if and only if the rate is 15 a minute or more |
| `BroadcastPace.SlowRatesCanBreakPace` | apps/gateway/src/gateway.ts:1820-1822 | below 15 a minute a refused send lets the next tick start early |
| `BroadcastPace.WindowBound` | apps/gateway/src/broadcasts.ts:205-213 | any window W of a paced broadcast holds at most perTick * (W / tickMs + 1) sends |
| `BroadcastPace.WindowNeverExceedsPace` | apps/gateway/src/gateway.ts:1773-1825 | from 15 a minute on, that bound holds for every window of every run |
| `BroadcastThrows.NobodyIsMessagedTwice` | apps/gateway/src/gateway.ts:1811-1905 | over every run in which sends throw and the others of their tick go on, no recipient key gets two calls that may have delivered |
| `BroadcastThrows.EndingHoldsExactly` | apps/gateway/src/gateway.ts:1811-1955 | throughout such a run a completed broadcast has everybody sent, failed or unknown and an ended one queues nobody a tick could still claim, if and only if no send that outlived its tick puts its recipient back after the end |
| `BroadcastThrows.MoveKeepsEndingExactly` | apps/gateway/src/gateway.ts:1863-1895 | the same for one move |
| `BroadcastThrows.RunsAddUp` | apps/gateway/src/gateway.ts:1862-1970 | in such runs the counts still add up to the request, a message id is set exactly on sent rows, and the equivalence holds from the request on |
| `BroadcastThrows.OnlyLooseSendsReopen` | apps/gateway/src/gateway.ts:1883-1897 | an ended broadcast with nobody open and no tick gets somebody open again exactly when a send that outlived its tick puts its recipient back |
| `BroadcastThrows.ThrowLeavesNobodyOpen` | apps/gateway/src/gateway.ts:1811-1831 | a throw leaves an ended broadcast with nobody open exactly when nobody was queued or left sending, the tick's other rows were erased and its own is gone or settled for good |
| `BroadcastThrows.CompletedWithSomebodyQueued` | apps/gateway/src/gateway.ts:1885-1895 | a run from the request on: a throttled answer after completion leaves a completed broadcast with a queued recipient |
| `BroadcastThrows.ThrowSkipsTheSweep` | apps/gateway/src/gateway.ts:1826-1830 | a run from the request on: a throw after a cancel leaves a stopped broadcast with a queued recipient |
| `BroadcastThrows.PaceSurvivesThrows` | apps/gateway/src/gateway.ts:1773-1825 | from 15 a minute on ticks keep the pace in every run with throws |
| `SendKeys.ResendsAreADayApart` | apps/gateway/src/gateway.ts:817-834 | over every run, two requests with one key that both reached Meta were claimed more than 24 hours apart |
| `SendKeys.OnlyAFreshKeySends` | apps/gateway/src/gateway.ts:817-834 | a request sends exactly when its key was not claimed in the last 24 hours; otherwise it changes nothing stored, whatever its body |
| `SendKeys.AnswersAreRightExactly` | apps/gateway/src/gateway.ts:816-838 | throughout a run every stored answer is its own request's and every answer given back the first request's, if and only if every settle finds the row of its own claim, or none |
| `SendKeys.SettleKeepsAnswersExactly` | apps/gateway/src/gateway.ts:836-838 | one settle keeps that exactly when the row it finds has the time of its own claim, or is gone |
| `SendKeys.TimelySettlesFindTheirRow` | apps/gateway/src/worker.ts:808-812 | sends that settle within 24 hours of their claim find their own row or none, in every run |
| `SendKeys.ReplaysAreTheFirstAnswer` | apps/gateway/src/rpc.ts:1173-1192 | while settles find their own rows, a stored answer given back is the one Meta gave the single request of that key in the 24 hours before, with the same body |
| `SendKeys.RepeatsAreAnswered` | apps/gateway/src/gateway.ts:816-834 | the converse: while settles find their own rows, a request that repeats a claim within 24 hours sends nothing and is always told what became of it: with another body that the key is used, with the same body the answer the claim stored, and that it is in progress before there is one |
| `SendKeys.RepliesTellBodiesApart` | apps/gateway/src/rpc.ts:1186-1191 | over every run, late settles included, whoever is told anything repeats the one request of its key in the 24 hours before, and is told the key is used exactly when the bodies differ |
| `SendKeys.DefiniteAnswersAreKept` | apps/gateway/src/rpc.ts:1190-1192 | an answer is kept for repeats exactly when it leaves nothing open: an acceptance, or a 3xx or 4xx |
| `SendKeys.LateSettleAnswersAnotherRequest` | apps/gateway/src/worker.ts:808-812 | settled after 24 hours, an answer is stored for the next request |
| `SendKeys.StepKeepsInv` | apps/gateway/src/worker.ts:785-832 | claims of a key stay more than 24 hours apart and call Meta once, whichever workers interleave or die |
| `SendKeys.Store.ClaimSendKey` | apps/gateway/src/gateway.ts:816-834 | by the row found: younger than 24 hours with another body, the key is used; with the same body, in progress without an answer and the stored answer with one, and the table stays; else the key is claimed for this body |
| `SendKeys.Store.SettleSendKey` | apps/gateway/src/gateway.ts:836-838 | stores the answer under the key, if its row is there, and changes nothing else of it and no other row |
| `SendKeys.Store.PruneSendKeys` | apps/gateway/src/gateway.ts:3073 | retention keeps exactly the rows younger than 24 hours, as they are |
| `Alarm.WorkIsArmedExactly` | apps/gateway/src/gateway.ts:2349-2496 | throughout a run stored work has an alarm set whenever `alarm()` is not running and no arming call is in flight, if and only if the object never dies asleep and unarmed with work stored |
| `Alarm.NoWakeUpIsLost` | apps/gateway/src/gateway.ts:2349-2496 | whenever `alarm()` is not running and no arming call is in flight, a pending delivery, sync payload, held batch, scheduled send or running broadcast has an alarm set, whatever landed at the run's awaits |
| `Alarm.StepKeepsInv` | apps/gateway/src/gateway.ts:2439-2494 | every await point of a run keeps what it already looked for covered by a wake, a flag, an alarm or a call about to arm |
| `Alarm.ArrivalsWakeAtOnce` | apps/gateway/src/gateway.ts:2191-2195 | work that arrives during a run is woken for at once when the run ends, whatever earlier wakes it collected |
| `Alarm.RunArmsForTheEarliest` | apps/gateway/src/gateway.ts:2439-2494 | whatever lands at its awaits, a run ends armed for the earliest of the times its steps asked for, and now if work arrived meanwhile; when nothing asked, the alarm stays as others set it |
| `Alarm.CallsArmWhatTheySaw` | apps/gateway/src/gateway.ts:717-724 | a hold that saw nothing armed arms for an hour later, a later send that saw nothing sooner arms for its time, any other call leaves the alarm |
| `Alarm.DeathLosesOnlyUnarmedWork` | apps/gateway/src/gateway.ts:717-724 | a death loses the wake-up exactly when the object was asleep and unarmed with work stored, and then a call was about to arm it |
| `Alarm.HeldBatchWithoutAlarm` | apps/gateway/src/gateway.ts:717-724 | a death between the hold's insert and its arming leaves a held batch without an alarm |
| `Alarm.EarliestWake` | apps/gateway/src/gateway.ts:2494 | the time armed is the earliest wake |
| `Alarm.GatewayAlarm.StoreAndWake` | apps/gateway/src/gateway.ts:2191-2195 | arms for now and tells a run in progress |
| `Alarm.GatewayAlarm.StoreHeld` | apps/gateway/src/gateway.ts:717-720 | a held batch is stored and its call has still to look at the alarm |
| `Alarm.GatewayAlarm.StoreScheduled` | apps/gateway/src/gateway.ts:1507-1524 | a send due now arms for now and tells a run in progress; a later one leaves the alarm and has still to look at it |
| `Alarm.GatewayAlarm.GetAlarm` | apps/gateway/src/gateway.ts:1518-1520 | a call sees the alarm as it is, and decides on it later |
| `Alarm.GatewayAlarm.ArmUnlessSooner` | apps/gateway/src/gateway.ts:1518-1521 | a hold arms for an hour later when it saw nothing armed, a later send for its time when it saw nothing sooner; else the alarm stays |
| `Alarm.GatewayAlarm.StartAlarm` | apps/gateway/src/gateway.ts:2349-2352 | the fired alarm is gone and the flag is cleared |
| `Alarm.GatewayAlarm.AfterDrain` | apps/gateway/src/gateway.ts:2439-2476 | the wakes are the next delivery attempt, or the next sweep while no target is set, and the next sweep for held batches, and no others |
| `Alarm.GatewayAlarm.EndAlarm` | apps/gateway/src/gateway.ts:2483-2494 | arms the earliest of the wakes collected, the media wake, the scheduled wake when that step did not fail, and now when work arrived; leaves the alarm when there is none |
| `Coexistence.SettledForGood` | apps/gateway/src/coexistence.ts:280-328 | a settled status at any time means nothing is owed at any time |
| `Coexistence.UnconfirmedIsSpent` | apps/gateway/src/coexistence.ts:358-374 | the status is unconfirmed exactly when a request went out without an answer |
| `Coexistence.OnlyTheDeadlineMoves` | apps/gateway/src/coexistence.ts:302-328 | the clock alone moves a status once at most, from pending to expired at the deadline |
| `Coexistence.OutstandingIsPending` | apps/gateway/src/coexistence.ts:330-356 | the saga may issue a sync exactly while the status is pending or expired, if and only if both syncs were started where both have answers or one is unanswered, unless Meta called the number standard |
| `Coexistence.SpentIsOutstandingExactly` | apps/gateway/src/coexistence.ts:331-356 | with a request unanswered a sync still counts as outstanding exactly when the other was never started and Meta has not called the number standard |
| `ProvisioningSpans.SpentYetOutstanding` | apps/gateway/src/provisioning.ts:288-300 | a run from a registration on reaches that state, and the saga refuses to go on in it because it asks for the unanswered request first |
| `ProvisioningSpans.SettledYetOutstanding` | apps/gateway/src/coexistence.ts:343-356 | a run from a registration on: refused before it was asked for, the history sync may still be issued when the status says settled |
| `Coexistence.MarkersReadBack` | apps/gateway/src/coexistence.ts:391-401 | a recorded refusal reads back as itself and never as an acceptance |
| `ProvisioningRows.StatusByCase` | apps/gateway/src/coexistence.ts:280-328 | the status is decided by the answers first, then by an unanswered request, then by what Meta called the number, then by the deadline |
| `Provisioning.SyncsAreRequestedOnce` | apps/gateway/src/provisioning.ts:282-402 | under one mark of a sync, and a registration or reset allows one, no phone is asked for it twice, over every interleaving of workers, leases, lost answers and deaths |
| `ProvisioningSpans.RegistrationAsksOnceExactlyWhen` | apps/gateway/src/control-plane.ts:1068-1256 | from a registration in any reachable state to the next one or a reset, no phone is asked for a sync twice in any run, if and only if no worker stands at its calls for that sync with phones left as it is made; registered as active or standard, if and only if no two such workers share a phone |
| `ProvisioningSpans.ResetAsksOnceExactlyWhen` | apps/gateway/src/control-plane.ts:1509-1545 | the same for an operator's reset, where a WABA that Meta knows as standard or whose window is over counts as not to be synced |
| `ProvisioningSpans.AsksOnceExactlyWhen` | apps/gateway/src/provisioning.ts:366-402 | the same from any state in which a span opens |
| `Provisioning.OnlyALateWorkerRepeats` | apps/gateway/src/provisioning.ts:366-402 | of two requests for one sync and phone made in one such span, one is by a worker whose mark is older |
| `Provisioning.SpentSyncStaysSpent` | apps/gateway/src/control-plane.ts:1576-1633 | a marked sync cannot be started again before a registration or a reset |
| `Provisioning.ClaimsAreDistinct` | apps/gateway/src/control-plane.ts:1401-1449 | no two claims of a WABA carry the same revision and attempt |
| `Provisioning.PairNeverGoesBack` | apps/gateway/src/control-plane.ts:1338-1449 | no control-plane call takes a row's revision and attempt back, and every claim moves it on |
| `Provisioning.StaleClaimsChangeNothing` | apps/gateway/src/control-plane.ts:1468-1778 | after any later claim, retry or registration, every adopt, begin and complete by the older claim changes nothing, in every run |
| `Provisioning.ActiveIsLeftOnlyByRegistration` | apps/gateway/src/provisioning.ts:453-478 | a committed success is undone by no catch branch, retry or operator recovery, only by a new registration |
| `Provisioning.SpentSyncIsNeverRetried` | apps/gateway/src/provisioning.ts:142-173 | a failure of the coexistence step is retryable exactly when nothing was issued, the window is open and no earlier sync is unanswered |
| `ProvisioningRows.FailuresTriedAgain` | apps/gateway/src/provisioning.ts:110-182 | which failures are tried again, place by place: of Meta's only no answer, 408, 425, 429 and 500 up; configuration never; the gateway always; a sync only before it was issued; and a missing number always |
| `Provisioning.BackoffMs` | apps/gateway/src/control-plane.ts:417-419 | retries wait between 5 seconds and an hour |
| `ProvisioningRows.BackoffGrows` | apps/gateway/src/control-plane.ts:417-419 | each wait is five times the one before, from five seconds up to an hour |
| `Provisioning.BeginIsSafe` | apps/gateway/src/control-plane.ts:1593-1633 | the durable mark comes before the calls, and one worker makes them |
| `Provisioning.CallIsSafe` | apps/gateway/src/provisioning.ts:381-395 | each phone is called once under a mark |
| `ProvisioningEvidence.NothingIsIssuedOnTrust` | apps/gateway/src/provisioning.ts:305-333 | in every run, whoever marks or requests a sync has Meta's own report that the number coexists, and no earlier request unanswered |
| `ProvisioningEvidence.EnteringSync` | apps/gateway/src/provisioning.ts:291-344 | a worker goes on to a sync exactly when one is owed, Meta reports coexistence, nothing is unanswered and the window has more than its margin left |
| `ProvisioningEvidence.VerifyOnboardingType` | apps/gateway/src/provisioning.ts:239-249 | the WABA counts as coexistent exactly when Meta reports every phone so; the first that is not ends the asking |
| `ProvisioningRows.WorkersGoOn` | apps/gateway/src/provisioning.ts:282-365 | once its WABA is configured a worker is done when nothing is owed, fails for good on an unanswered request or with half an hour of the window left, and else asks for contacts before history |
| `ProvisioningRows.AnswersGoOn` | apps/gateway/src/provisioning.ts:366-402 | one phone's failure ends the attempt, unconfirmed once the request has left; after the last answer the sync is recorded as refused if any phone refused, else by the first id, else as accepted |
| `ProvisioningRows.PhonesAreFound` | apps/gateway/src/provisioning.ts:184-236 | a worker's phones are the row's as it reads them, else what Meta lists once adopted; without any it waits for a number |
| `ProvisioningOutcome.ActiveOwesNothing` | apps/gateway/src/control-plane.ts:1635-1735 | a WABA the saga made active owes Meta no sync, now or later |
| `ProvisioningOutcome.ActiveHasAPhone` | apps/gateway/src/provisioning.ts:419-450 | a WABA the saga made active has a phone unless another WABA took one of its phones |
| `ProvisioningOutcome.LateWorkerRepeats` | apps/gateway/src/provisioning.ts:366-402 | a worker that outlives a registration repeats the new one's request |
| `ControlPlane.OnlyUnclaimedPhonesTakeNothing` | apps/gateway/src/control-plane.ts:1041-1066 | giving phones to a WABA takes none from another exactly when the owner check passes |
| `ControlPlane.Store.RegisterWaba` | apps/gateway/src/control-plane.ts:1068-1138 | refused exactly when a phone is another WABA's; else a new revision with no attempt, lease or handoff, no sync asked or answered and a day to ask when it coexists, and the phones added |
| `ControlPlane.Store.BeginWabaProvisioning` | apps/gateway/src/control-plane.ts:1146-1256 | refused exactly when a phone is another WABA's; the handoff a WABA that has not failed was last given changes nothing; any other starts over at once, and naming phones drops the others |
| `ControlPlane.Store.ClaimProvisioning` | apps/gateway/src/control-plane.ts:1401-1440 | claims exactly a pending row that is due, of the revision expected, with no lease left, for a minute; the claim carries the row's revision, attempt and coexistence state |
| `ControlPlane.Store.PhonesOfClaim` | apps/gateway/src/control-plane.ts:1428-1442 | a claim's phones are those of the WABA once its token is decrypted; its pair and snapshot stay those of the claim |
| `ControlPlane.Store.RetryWabaProvisioning` | apps/gateway/src/control-plane.ts:1338-1364 | a retry takes a new revision and keeps the deadline and the marks |
| `ControlPlane.Store.AdoptWabaPhones` | apps/gateway/src/control-plane.ts:1451-1508 | fills an empty phone set with what was found exactly under the row's last claim, taking those phones from any other WABA |
| `ControlPlane.Store.BeginCoexistenceSync` | apps/gateway/src/control-plane.ts:1576-1633 | marks a sync once, under the claim's guard, and says whether the caller may call |
| `ControlPlane.Store.CompleteWabaProvisioning` | apps/gateway/src/control-plane.ts:1635-1780 | ends an attempt exactly under the row's last claim: active on success, failed for good on a final failure or at the sixth attempt unless it waits for a number, else due again after the delay; answers are added, never replaced, and the status follows them |
| `ControlPlane.Store.ResetUnconfirmedSync` | apps/gateway/src/control-plane.ts:1509-1545 | forgets exactly an unanswered sync of a failed WABA with one phone at most, and nothing of the other sync |
| `ControlPlane.Store.SettleSyncNotPermitted` | apps/gateway/src/control-plane.ts:1547-1574 | records a permission refusal for an unanswered sync of a failed WABA |
| `ControlPlane.Store.MarkHistorySharingOff` | apps/gateway/src/control-plane.ts:2073-2103 | records the sharing refusal on a coexistence WABA only |
| `ControlPlane.AskPhones` | apps/gateway/src/provisioning.ts:382-401 | stops at the first failure; else records the first phone's refusal if one refused, else the first id Meta gave, else that it was accepted |
| `Held.Store.HeldEventCount` | apps/gateway/src/held-webhooks.ts:27-29 | the total read is the number of events stored |
| `Held.Store.HoldBatch` | apps/gateway/src/held-webhooks.ts:31-48 | holds a batch exactly when the total stays within 5000 |
| `Held.Store.ReleaseHeld` | apps/gateway/src/gateway.ts:726-747 | ingests exactly the batches that came through a registered phone or none, in the order held, discards exactly the others, and holds nothing after |
| `Held.Store.ExpireHeld` | apps/gateway/src/held-webhooks.ts:71-77 | drops exactly the batches held for more than three days, counts their events, and keeps the others in their order |
| `Held.Store.ReplaceHeld` | apps/gateway/src/held-webhooks.ts:79-83 | rewrites a batch with the events kept, or deletes it |
| `Held.ReleaseSplits` | apps/gateway/src/gateway.ts:728-739 | every held event is ingested or discarded by a release, none twice |
| `Held.ReleaseTakesTheRegistered` | apps/gateway/src/gateway.ts:728-739 | position by position: a batch is ingested exactly when it came through a registered phone or none, and discarded exactly when it did not |
| `HeldHandshake.ArrivalsMeetTheStatus` | apps/gateway/src/worker.ts:352-394 | a batch that arrives is held by a pending WABA, ingested by an active one whose phone it came through, and ignored by any other |
| `HeldHandshake.ActiveHoldsNothing` | apps/gateway/src/worker.ts:352-366 | with no webhook worker and no saga release outstanding, an active WABA holds nothing, unless somebody died between storing or activating and releasing since the last release; a recheck whose lookup or release fails counts as such a death |
| `HeldHandshake.NextIngestReleases` | apps/gateway/src/worker.ts:388-394 | what a death left is released after the next webhook that ingests |
| `HeldHandshake.HeldEventsAddUp` | apps/gateway/src/held-webhooks.ts:27-48 | over every run the hold's total is the events it stores, at most 5000, and every accepted event is held or met exactly one end |
| `HeldHandshake.StepKeepsHandshake` | apps/gateway/src/provisioning.ts:453-463 | lookups, holds, rechecks, ingests, releases, activations and re-registrations keep somebody responsible for held batches of an active WABA |
| `SyncPayloads.OldestIsThePrefix` | apps/gateway/src/gateway.ts:2519-2581 | for the oldest payload, whatever slices, aborted wakes and captures, the items applied are at every point exactly its first `cursor` ones but those that throw, in order, if and only if no wake of 200 holds a refusal and, after it, an item that would be applied |
| `SyncPayloads.AppliedIsThePrefix` | apps/gateway/src/gateway.ts:2519-2581 | for a payload anywhere in the queue, where earlier ones take a part of the wake, if and only if no item that would be applied comes fewer than 200 items after a refusal |
| `SyncPayloads.WholeSliceApplied` | apps/gateway/src/gateway.ts:2557-2568 | every item of a slice that does not throw is applied exactly when nothing after a refusal would have been |
| `SyncPayloads.SkippedAfterRefusal` | apps/gateway/src/gateway.ts:2561 | one wake that reads a refusal and an item after it finishes the payload without that item |
| `SyncPayloads.VisitsAreBounded` | apps/gateway/src/gateway.ts:2531-2581 | between captures there are never more visits, aborted or not, than work was left |
| `SyncPayloads.VisitMakesProgress` | apps/gateway/src/gateway.ts:2534-2577 | a visit parks, finishes or advances a payload, within its budget |
| `SyncPayloads.VisitKeepsItsWord` | apps/gateway/src/gateway.ts:2536-2577 | the same for the visit as a function, applied items given by their positions |
| `SyncPayloads.ApplySlice` | apps/gateway/src/gateway.ts:2557-2568 | applies exactly the items that do not throw up to the first refusal, that one included, in their order, and reports a refusal exactly when there is one |
| `SyncPayloads.Queue.ProcessSyncBatch` | apps/gateway/src/gateway.ts:2519-2583 | a wake makes progress while work is left, passes at most 200 items, asks for no other wake only when every payload is closed, and for one only when a payload is open or sharing was refused |
| `SyncPayloads.Queue.VisitOne` | apps/gateway/src/gateway.ts:2536-2577 | parks a payload over 20 MB, on its sixth attempt or unreadable, with nothing applied; else reads as many items as the budget allows, applies them up to a refusal, and closes it once all are read; no other payload changes |
| `SyncPayloads.Queue.Capture` | apps/gateway/src/gateway.ts:581-616 | a new payload goes behind the others, open and unread, and what was applied of them stays |
| `Conversations.OneCustomerOneConversation` | apps/gateway/src/gateway.ts:2321-2347 | in every reachable state no message and no contact sits under a BSUID whose phone is known |
| `Conversations.LearnKeepsMerged` | apps/gateway/src/gateway.ts:2326-2347 | learning a pair moves everything stored under the BSUID |
| `Conversations.ItemKeepsMerged` | apps/gateway/src/gateway.ts:2636-2757 | history items and contacts keep it too |
| `ConversationContacts.EveryConversationHasAContact` | apps/gateway/src/gateway.ts:2233-2347 | in every reachable state, merges and rebuilds included, every message's customer has a contact |
| `ConversationContacts.AddressBookNamesStay` | apps/gateway/src/gateway.ts:2233-2274 | live traffic never replaces a name from the address book |
| `ConversationWrites.LiveMessagesReadAsTheyCame` | apps/gateway/src/gateway.ts:2222-2274 | over every run, whatever history, rebuilds, merges and callbacks come between, a message is live exactly when an event or a send brought one with its id, and its type, text, content, direction, time, target and number are those of the first that did |
| `ConversationWrites.HistoryRowKeepsItsWord` | apps/gateway/src/gateway.ts:2710-2747 | a history message is stored as it came when its id is new, with the media that waited for it; when it is not, only a placeholder's content is completed |
| `ConversationHistory.MessagesAreFiledByTheFinalPairs` | apps/gateway/src/gateway.ts:2200-2347 | while each BSUID has one phone, every message ends in the conversation the final pairs give the id it arrived with |
| `ConversationHistory.RepairingBreaksFiling` | apps/gateway/src/gateway.ts:2329-2333 | learning a pair files every message right exactly when it does not move a BSUID that messages arrived under to another phone |
| `ConversationHistory.PairedTwiceMisfiles` | apps/gateway/src/gateway.ts:2321-2347 | a run from the empty store: written under a BSUID that is paired with one phone and then another, a message stays with the first |
| `ConversationHistory.HistoryIsAFold` | apps/gateway/src/gateway.ts:2683-2757 | over every run without erasure or cutoff, a history row and what waits for a placeholder are the fold of the items with that id, whatever live traffic comes between |
| `ConversationRebuild.RebuildYieldsTheFirstPass` | apps/gateway/src/gateway.ts:2773-2792 | a rebuild gives the same messages with the same customer, direction, type, text and content; a history row's status is the same exactly when no callback moved it |
| `ConversationRebuild.RebuildAmidTraffic` | apps/gateway/src/gateway.ts:2773-2792 | the same with live messages, sends and callbacks between the items applied again: a history row no live message took has the same content, filed by the pairs known by then, and live rows keep their content |
| `RebuildQueue.RebuildByTheQueue` | apps/gateway/src/gateway.ts:2519-2792 | a rebuild by the queue itself: once every payload has been read through, in any slices and wakes, and again after the reset, with live traffic between the wakes, the messages are the first pass's, as long as no payload holds an item that a refusal could hide |
| `RebuildQueue.MovesKeepInStep` | apps/gateway/src/gateway.ts:2531-2581 | in every run the store has applied what the queue has, payload by payload, oldest first |
| `RebuildQueue.ResetStartsOver` | apps/gateway/src/gateway.ts:2773-2792 | a reprocess opens every payload again at its first item, finished and parked ones too |
| `ConversationRebuild.RebuildDropsACallback` | apps/gateway/src/gateway.ts:2212-2220 | a delivery callback on a history row is lost by a rebuild |
| `ConversationRebuild.PlaceholderAndMediaAgree` | apps/gateway/src/gateway.ts:2683-2757 | a placeholder and its one media webhook end with the same type, text and content in either order, with anything between; the whole row agrees and nothing waits when the webhook names no customer |
| `ConversationRebuild.EitherOrderFills` | apps/gateway/src/gateway.ts:2688-2747 | the same for the two items alone |
| `ConversationRebuild.OtherItemsDoNotMatter` | apps/gateway/src/gateway.ts:2683-2757 | only the items with an id say what becomes of it |
| `ConversationStatus.SentStatusIsTheFold` | apps/gateway/src/gateway.ts:752-800 | wherever a send is logged among its callbacks and however often they repeat, its status is the fold of all of them in order from `sent` |
| `ConversationStatus.FoldIsTheFurthest` | apps/gateway/src/gateway.ts:2209-2220 | without a failure the fold is the furthest of sent, delivered and read |
| `ConversationStatus.OrderDoesNotMatter` | apps/gateway/src/gateway.ts:2209-2220 | two orders of the same callbacks without a failure agree |
| `ConversationStatus.FailedExactlyWhenFirst` | apps/gateway/src/gateway.ts:2209-2212 | a message ends as failed exactly when a failure came before any delivery |
| `ConversationStatus.ReadAndFailedAreFinal` | apps/gateway/src/gateway.ts:2209-2220 | on a live row read and failed never change |
| `ConversationStatus.RepeatIsInert` | apps/gateway/src/gateway.ts:631-658 | a status applied once changes nothing when it comes again |
| `ConversationStore.Tables.LearnCustomerPair` | apps/gateway/src/gateway.ts:2326-2347 | a new pair is recorded, exactly what was under the BSUID moves to the phone, and the phone's contact keeps its name and takes the BSUID's only when it has none |
| `ConversationStore.Tables.StoreLiveMessage` | apps/gateway/src/gateway.ts:2233-2274 | a live message not stored live yet is stored with its type, text, content, direction, time, status, target and number, over a history row with its id too, filed by the pairs known; one that is stays as it is; its contact is named by the rules for live names; nothing else changes |
| `ConversationStore.Tables.MoveStatus` | apps/gateway/src/gateway.ts:2207-2220 | moves an outgoing message from no status or sent to the callback's, and from delivered to read; nothing else of it and no other message changes |
| `ConversationStore.Tables.IngestEvents` | apps/gateway/src/gateway.ts:629-661 | is the run of the webhook's events one by one in their order, repeated ones too |
| `ConversationStore.Tables.LogSent` | apps/gateway/src/gateway.ts:748-800 | stores the send and replays the callbacks that overtook it, in the order they came |
| `ConversationStore.Tables.StoreHistory` | apps/gateway/src/gateway.ts:2683-2757 | stores a history message of a customer who is not erased and inside the window as it came, completing only placeholders that are there, and keeps media that comes first for its placeholder |
| `ConversationStore.Tables.ApplySyncItem` | apps/gateway/src/gateway.ts:2636-2681 | nothing of an item that names an erased customer; else its pair is learned and its message stored, or its address-book name set, or on a removal taken |
| `ConversationStore.Tables.ReprocessSyncPayloads` | apps/gateway/src/gateway.ts:2773-2792 | drops exactly the messages that are not live, the media that waits, the contacts only history named and the address-book names |
| `Erasure.ClosureIsLeast` | apps/gateway/src/gateway.ts:2011-2053 | the key search ends with the least set of names closed under the pairs of retained and held events |
| `Erasure.CollectKeys` | apps/gateway/src/gateway.ts:2029-2053 | passes over the events until the keys stop growing compute that set |
| `Erasure.KeysAreTheNames` | apps/gateway/src/gateway.ts:2009-2053 | the names found are exactly the customer's: the id given, its phone, every BSUID of that phone, and whatever the retained and held events that bear one of them pair it with |
| `Erasure.NothingNamesTheCustomer` | apps/gateway/src/gateway.ts:1997-2180 | afterwards no inbound, outbound, recipient, scheduled, held, delivery, message, contact or pair row names the id given, its phone, any BSUID of that phone, or a name that events pair with one of them, and all are recorded as erased |
| `Erasure.OnlyTheCustomerGoes` | apps/gateway/src/gateway.ts:2055-2180 | table by table, what is neither the customer's nor about a message of the customer stays, as it is and in its order |
| `Erasure.WamidsMean` | apps/gateway/src/gateway.ts:2021-2096 | the messages of the customer are those that an event bearing a name is, or that a send to a name was sent as |
| `Erasure.TargetsExactly` | apps/gateway/src/gateway.ts:3363-3374 | an event goes exactly when it names the customer or is about a message of the customer |
| `Erasure.SecondErasureDeletesNothing` | apps/gateway/src/gateway.ts:1997-2180 | a second run, by any of the customer's names, changes nothing |
| `Erasure.NoCallbackOfTheCustomer` | apps/gateway/src/gateway.ts:2101-2107 | no status callback is left for any message of the customer |
| `Erasure.UnrelatedEventsStayInOrder` | apps/gateway/src/gateway.ts:2115-2161 | unrelated events of a mixed batch survive, each at its place, in their order |
| `Erasure.KeepEvents` | apps/gateway/src/gateway.ts:3366-3374 | keeps exactly the events the erasure does not target |
| `Erasure.RewriteDropsTheCustomerOnly` | apps/gateway/src/gateway.ts:2115-2152 | a batch stays whole exactly when no event of it is the customer's, goes exactly when it is pending and every event is, is redacted when it had ended and every event is; a mixed one holds the other events, all of them in their order, under the phone they came through if it is one |
| `Erasure.OnlyPhoneMeans` | apps/gateway/src/gateway.ts:2130-2138 | a rewritten batch is under a phone exactly when some kept event came through it and none through another |
| `Erasure.Gateway.EraseByPhone` | apps/gateway/src/gateway.ts:1997-2180 | the names erased are exactly the customer's: those the pair table gives the id and, with a name an event bears, the pair it carries; afterwards no row of any table names one of them, all are recorded, and of every table stays exactly what is neither the customer's nor about a message of the customer |
| `ErasureLasting.ErasedStaysOut` | apps/gateway/src/gateway.ts:2636-2681 | after an erasure, rebuilds and later history included, the customer stays out of the conversation store throughout a run, if and only if no live message and no send of the run names the customer |
| `ErasureLasting.OnlyLiveTrafficBringsBack` | apps/gateway/src/gateway.ts:2055-2061 | no history item, rebuild or callback brings an erased customer back; a live message or a send that names the customer always does |

## Left out

- Transport and plumbing: HTTP routing, RPC bindings, requests to Meta, the subscriber, Telegram and mail; each answer is a nondeterministic result of a step.
- Hashing, signatures and token sealing: `bodyHash` and `fingerprint` are plain values that are equal when the inputs are.
- Parsing: Meta's webhook and history JSON (`parseMetaWebhook`, `syncItems`, `mapSyncItem`, `messageFromEvent`) is taken as typed events and items; customer ids are two cases, a phone's digits or a BSUID, already normalized. Text inputs are modelled only for broadcast recipients.
- Storage: SQL, indexes and migrations; tables are maps or sequences with the unique keys as invariants. The one-time backfills at a migration are left out.
- Media: downloads, R2 objects, tombstones and their purge, and the media wake except as one optional time of an alarm run.
- Retention sweeps of messages and events, exports, console reads, diagnostics, alerts and health words.
- Deliveries to the subscriber: the drain, its retries and backoff; only whether one is pending matters to the alarm. The origin copied onto late events (`attachLateOrigin`) is left out.
- Several broadcasts at once: one broadcast is modelled, and the sends that scheduled sends took from its tick are an argument of the claim.
- The scheduled engine's own `scheduled_next_tick_at` pace: a claim may come at any time no tick is in progress, which allows more runs than the code does; `Scheduled.OnlyStraySendsRepeat` holds for whatever pace the claims keep.
- Items that throw: whether a history item throws is taken as a property of the item, the same in both passes of a rebuild, and nothing it wrote before is kept.
- Outbound log rows of sends (`outbound_messages`): only whether a send was accepted is kept, so a throw between a settle and its log row is not told from one after it.
- Accounts: the ownership check by account in the control plane and the listing by account; WABAs and phones are modelled. Batches of registrations are modelled one WABA at a time.
- Texts: error messages, log lines, `provisioning_error`, `coexistence_sync_error` and `halt_reason`.
- Alarm.NoWakeUpIsLost: says that an alarm is set, not that it is set by the time work is due; calls that arm without the flag, and a hold that read the alarm before a sooner one was set, can push it back.
- ProvisioningOutcome.ActiveHasAPhone: a phone taken by another WABA's adoption is a step of its own, because the code has no owner check there.
- HeldHandshake.ActiveHoldsNothing: WABAs become active only through the saga; a registration that asks to be active at once releases nothing.
- ConversationHistory.HistoryIsAFold: erasure and retention cutoffs delete or skip rows, so runs with them are left to the erasure results.
- Erasure.Gateway.EraseByPhone: the substring prefilter on stored JSON is left out, since it drops only events that name none of the keys.
