# GitHub release notifier: a verified model

This project models the parts of the release notifier in which several processes
share durable state, and proves what they promise together. `dafny verify
dfyconfig.toml` checks all of it.

## What is modelled

- **The subscribe saga.** `SagaProtocol` is one transition system: request
  goroutines in StartAndWait, reply handlers, reapers, the saga table, the command
  and reply queues, the participant's workers and the dedup ledger. Each SQL
  statement, publish, send and settlement is one step, and any step of any process,
  an error, a lost channel or a crash may come next. `SagaInvariant` and `SagaSteps`
  hold the inductive invariant; `SagaTheorems`, `SagaWaiters`, `SagaMails` and
  `SagaReturns` what follows for every run. `SagaCauses` says why a saga is compensated,
  `SagaRefusals` which sagas can complete, `SagaStranded` and `SagaRescue` from which
  states a saga can still come to be failed. `SagaStories` has the blocks from
  which the runs are built that show a bound is met, `SagaDeadEnds` those that strand a
  saga. `SagaOrchestrator` and `Notifier` are the same code as objects, with lemmas that
  an uninterrupted run of a process is the method. `SubscribeEndToEnd` runs the saga and
  the subscriptions table as one system.
- **The dedup ledger and the email queue.** `Ledger` runs any number of workers over
  the ledger; it is embedded in the saga and in `EmailQueue`. `EmailDelivery` shows that
  no command gets stuck. `EmailConsumer` is the consumer with its delivery loop.
- **Subscriptions, poller and fan-out.** `Subscriptions` interleaves Subscribe,
  Confirm, Unsubscribe and compensation statement by statement, `RefreshRaces` says
  exactly what can happen to a row between the read and the write of a call;
  `SubscriptionService` is the service one request at a time. `FanOut` is the worker
  pool, `Poller` the scans around it with crashes and changing subscriptions,
  `PollerService` one whole scan as a method, `NotifyEndToEnd` the poller and the
  subscriptions table as one system.
- **In-memory state.** `RateLimiter`, `Sampler` and `Publisher` (the reconnecting
  AMQP publisher) as objects, histories and state machines.
- **Cache and trace hop.** `GithubCache` with `RepositoryRef`, and `TraceContext`.

The pattern is the same throughout. A table or an object has pure functions for its
statements. Methods of classes are proved equal to these functions. State machines
interleave the same functions. Theorems quantify over every run, that is over
sequences of states and events of any length.

## Assumptions

- A SQL statement is atomic and takes effect before its call returns. Every call to
  another system takes an `Outcome`: it worked, it failed without an effect, or it
  reported an error after taking effect.
- Encoding to JSON and decoding it again gives the same value. The hash of the dedup
  key is injective. Generated saga ids and tokens were not used before.
- Clock readings taken under the rate limiter's lock do not decrease. No such
  assumption is made of the sampler, which reads the clock before it locks.
- Only the orchestrator publishes saga commands of the known type, and only the
  participant saga replies; anything undecodable may appear in either queue at any
  time.
- Strings are sequences of characters. The lengths that the source takes in bytes are
  compared only on strings whose characters are then required to be ASCII.

## Results that differ from what one might expect

- The error of a failed publish is described as "the subscription was compensated"
  (internal/saga/orchestrator.go:22-24). When the compensation reported no error, the
  subscription was compensated exactly if the saga did not complete, and it cannot have
  completed unless the broker had accepted the command
  (`SagaReturns.CompensatedIffNotCompleted`). So the promise is kept in every run
  exactly when the compensation worked and the command was not accepted; each other
  case has a run that breaks it: `SagaReturns.CompletedThoughPublishFailed`, and
  `SagaReturns.FailedCompensationLeavesSagaOpen` for a command that was accepted and for
  one that was not.
- A failure through the waiter means a failed saga only if replies are handled one at a
  time and no completion is hidden by an error. Neither can be dropped:
  `SagaReturns.TwoHandlersMislead`, `SagaReturns.HiddenCompletionMisleads`.
- The timeout error is described as "the reaper will compensate the subscription"
  (internal/saga/orchestrator.go:25-27). A late reply can still complete the saga
  (`SagaReturns.CompletedThoughTimedOut`). However the request returned, a terminal saga
  was cancelled exactly if it is failed, and that exactly if it did not complete
  (`SagaReturns.TerminalIsCancelledIffFailed`).
- Not every timed-out saga ends failed, and not every saga stuck in compensating is
  resumed (internal/saga/orchestrator.go:204-205), because the reaper lists only
  awaiting sagas. A saga is stranded when its row is compensating and nothing is left
  that could bring a compensation to its end: no unfinished compensation of it, no
  reaper that comes to it, no request about to register or publish, no failed reply in
  the queue or just taken, no worker that could still refuse its command, and, if there
  are workers at all, no command of it in the queue. In every reachable state a saga with a row can still come to be failed if and only if it
  is neither completed nor stranded (`SagaRescue.FailsUnlessStranded`). A claim that
  reports an error after its effect, a failed Cancel, a failed mark and a crash after the
  claim each lead there (`SagaDeadEnds.BreakStrandsSaga`), and so does the reaper for a
  saga whose mail was sent (`SagaDeadEnds.AcceptedSagaIsStranded`).
- The dedup key of a confirmation is its URL alone. A confirmation that someone else
  sent under the same URL to another address lets the saga complete while its
  subscriber gets nothing (`SagaMails.OutsideConfirmationShadows`); without one, the
  subscriber's own mail is accepted (`SagaMails.ConfirmationReachesSubscriber`).
- The token refresh compares the token and not the status. A refresh that wins finds
  the row pending exactly when no status was written to it since the read
  (`RefreshRaces.RefreshFindsPendingIffStatusUntouched`); it can win on an active row
  and on an unsubscribed one (`RefreshRaces.RefreshCanWinOnActiveRow`,
  `RefreshRaces.RefreshCanWinOnUnsubscribedRow`).
- Unsubscribed is not always final: a Confirm that found the row pending can still
  write active (`RefreshRaces.UnsubscribedCanComeBack`). A row stays unsubscribed in
  every continuation exactly when no such Confirm is under way
  (`RefreshRaces.UnsubscribedIsFinal`, `RefreshRaces.ConfirmUnderwayRevives`).
- Outside the publisher's lock the open connections are not always the cached one: a
  dial that was abandoned may succeed late
  (`Publisher.AbandonedDialIsOpenForAWhile`). They are exactly the cached one if and
  only if no such connection awaits its close (`Publisher.NoConnectionLeaks`), and the
  background steps alone bring that about (`Publisher.BackgroundDrains`).
- A cached GitHub answer is at most `ttl` old counted from the moment it was stored.
  Counted from the moment the base client gave it, the time it took to store it is
  added, and every such age is reached (`GithubCache.CachedAnswersAreFresh`,
  `GithubCache.AgesAreReached`). Without a time to live there is no bound.
- The limiter admits at most 2 * max(limit, 1) - 1 requests of one address in a closed
  interval of one window length, one fewer than twice the limit, and that many are
  reached for every positive limit and window (`RateLimiter.BoundIsReached`).
- The traceparent parser departs from section 3.2.2 of W3C Trace Context in three ways
  and no other (`TraceContext.ParserAgainstStandard`): it accepts the version ff, it
  accepts letters in upper case, and it refuses the further fields that a higher
  version may have.

## Model

| member | source | states |
|---|---|---|
| SagaTheorems.CompletedMeansMailed | internal/saga/orchestrator.go:147-158 | in every reachable state a completed saga implies that the mailer accepted a confirmation with the saga's own confirm URL |
| SagaTheorems.NoSagaLostInTransit | internal/saga/orchestrator.go:91-167 | an awaiting saga whose command the broker accepted has its command or a reply queued or unacked |
| SagaTheorems.RemovedReplyIsSettled | internal/saga/orchestrator.go:127-167 | a sent reply leaves the queue only when its saga is no longer awaiting, a failed reply only when it is terminal, any other only if undecodable |
| SagaTheorems.HistoriesArePaths | internal/saga/store.go:61-108 | every saga's history is a prefix of awaiting-completed or awaiting-compensating-failed, ends in the row's state and is only ever extended |
| SagaTheorems.CancelledNeverCompletes | internal/saga/orchestrator.go:206-229 | a saga for which a Cancel ran at any time of a run is completed at no time of it, and the Cancel named the saga's own subscription |
| SagaTheorems.FailedOnlyAfterCancel | internal/saga/orchestrator.go:206-229 | a failed saga has had a successful Cancel |
| SagaTheorems.SuccessMeansCompleted | internal/saga/orchestrator.go:113-124 | StartAndWait returned nil only for a saga that is durably completed and stays so; when it does return nil is in `SagaReturns.ReceivedIsTheTruth` |
| SagaSteps.RunInv | internal/saga/orchestrator.go:91-229 | the invariant of rows, queues, handlers, waiters, workers and ledger holds in every state of every run |
| SagaWaiters.FailureMeansFailed | internal/saga/orchestrator.go:279-290 | with one reply handled at a time and no completion hidden by an error, a failure received through the waiter means the saga is durably failed, whatever replies come late, twice or contradict each other |
| SagaMails.ConfirmationReachesSubscriber | services/notification/service.go:46-53 | a completed saga's own confirmation, address, URL and repository, was accepted by the mailer, when no other saga has its URL and nobody else sends another confirmation under it |
| SagaMails.OutsideConfirmationShadows | services/notification/service.go:46-53 | a run in which a confirmation from outside under the saga's URL goes to another address, the saga completes, and its own mail was never accepted |
| SubscribeEndToEnd.ConfirmUrlIsInjective | internal/subscription/links.go:19-21 | links agree exactly when their tokens do |
| SubscribeEndToEnd.LinkLeadsToConfirm | internal/api/rest/router.go:46-47 | the link of a token that is one path segment is routed to Confirm with that token, and no link to Unsubscribe |
| SubscribeEndToEnd.UrlsAreOwn | internal/subscription/service.go:50-58 | in every run of saga and table together no two sagas share a confirm URL |
| SubscribeEndToEnd.SubscriberIsMailedOwnLink | internal/subscription/service.go:37-63 | in every run of saga and table together a completed saga was begun by a call of its own; its token was written to a row of the caller's address and repository, and unless someone outside sends another confirmation under its URL, the mailer accepted a mail to the caller with the link of that token |
| SubscribeEndToEnd.FailedSagaIsUnsubscribed | internal/subscription/sagacanceller.go:25-33 | in every run of saga and table together a failed saga's caller had its own row unsubscribed, and the row still is unless a Confirm had it in hand at that time |
| SagaReturns.CompensatedIffNotCompleted | internal/saga/orchestrator.go:108-111 | when the compensation after a failed publish reported no error, the subscription was cancelled exactly if the saga is failed, that exactly if it is not completed, always if the command was not accepted, and this stays so |
| SagaReturns.FailedCompensationLeavesSagaOpen | internal/saga/orchestrator.go:259-263 | for either outcome of the failed publish, a run in which the request is told that confirmation failed while the saga is awaiting and nothing was cancelled |
| SagaReturns.CompletedThoughPublishFailed | internal/saga/orchestrator.go:108-111 | a run in which the publish reported an error after its effect, the saga completed, the compensation reported no error, and the request is told that confirmation failed |
| SagaReturns.TerminalIsCancelledIffFailed | internal/saga/orchestrator.go:22-27 | a terminal saga's subscription was cancelled exactly if the saga is failed, and that exactly if it is not completed |
| SagaReturns.CompletedThoughTimedOut | internal/saga/orchestrator.go:113-123 | a run in which the request is told to leave the subscription to the reaper and the saga then completes |
| SagaReturns.HiddenCompletionMisleads | internal/saga/orchestrator.go:147-158 | a run with one reply handled at a time in which a completion hidden by an error is followed by a reported failure |
| SagaReturns.TwoHandlersMislead | internal/saga/orchestrator.go:279-290 | a run without hidden completions in which two handlers lead to a reported failure of a completed saga |
| SagaReturns.ReturnTellsWhy | internal/saga/orchestrator.go:91-124 | in every run a request returns once, and each return has its own step: the timeout exactly when it gave up on its timer, the context's error exactly when it gave up on the context, nil or the notifier's failure exactly when it received a signal |
| SagaReturns.ReceivedIsTheTruth | internal/saga/orchestrator.go:113-124 | with one reply handled at a time and no hidden completion, a request that received a signal got nil exactly if its saga is completed and a failure exactly if it is failed |
| SagaReturns.SubscriptionSucceeds | internal/saga/orchestrator.go:91-124 | for every complete subscription a run that ends with the saga completed and nil returned |
| SagaRows.BatchMeans | internal/saga/store.go:110-133 | only awaiting sagas with a deadline before now are listed, and such a saga is missing only from a full batch of sagas with deadlines no later |
| SagaCauses.ReaperListsOnlyTheLate | internal/saga/orchestrator.go:170-185 | in every run a saga that a reaper lists is awaiting, and the deadline its own request began with has passed |
| SagaCauses.PassedOverOnlyForOlder | internal/saga/store.go:110-133 | in every run an awaiting saga past its deadline is passed over only for a full batch of others no younger |
| SagaCauses.ClaimedForCause | internal/saga/orchestrator.go:206-229 | in every run a saga is claimed only after a reaper listed it past its deadline, its command could not be published, or a worker published that its confirmation failed |
| SagaCauses.InFlightIsLeftAlone | internal/saga/orchestrator.go:170-185 | a saga whose command was published and that no worker refused is awaiting or completed as long as no reaper looks past its deadline |
| SagaRefusals.IncompleteNeverCompletes | services/notification/sagaparticipant/participant.go:64-67 | in every run a saga whose subscription lacks the address, the link or the repository is not completed and no worker sends its mail |
| SagaRefusals.CompletesIffComplete | services/notification/sagaparticipant/participant.go:59-78 | some run completes a subscription's saga if and only if it has all three |
| SagaStranded.StrandedStays | internal/saga/store.go:110-133 | a stranded saga is stranded in every continuation of the run, and in no batch the reaper could list |
| SagaRescue.FailsUnlessStranded | internal/saga/orchestrator.go:127-229 | after any run, with any faults, a saga that has a row can still come to be failed if and only if it is neither completed nor stranded |
| SagaDeadEnds.BreakStrandsSaga | internal/saga/orchestrator.go:206-229 | for each way in which the compensation after a failed publish can break off once the row is claimed, a run after which the saga is stranded: an error of the claim after its effect, a failed Cancel, a failed mark, a crash |
| SagaDeadEnds.AcceptedSagaIsStranded | internal/saga/orchestrator.go:170-185 | a run in which the mail was sent, the request timed out, the reaper's Cancel failed and the late reply was acked: the saga is stranded with all queues and hands empty |
| SagaOrchestrator.Store.Create | internal/saga/store.go:25-38 | inserts the row unless the id exists, which is an error |
| SagaOrchestrator.Store.Get | internal/saga/store.go:40-59 | the row, or an error when it is missing or the query fails |
| SagaOrchestrator.Store.CompleteIfAwaiting | internal/saga/store.go:61-76 | moves only an awaiting saga, and reports the move only without an error |
| SagaOrchestrator.Store.ClaimCompensation | internal/saga/store.go:78-97 | moves only an awaiting saga and hands its data to the one caller that moved it |
| SagaOrchestrator.Store.MarkCompensated | internal/saga/store.go:99-108 | moves only a compensating saga to failed |
| SagaOrchestrator.Store.ListTimedOut | internal/saga/store.go:110-133 | the oldest awaiting sagas whose deadline is before now, each once, oldest first, as many as the limit allows; none is left out for a younger one |
| SagaOrchestrator.Orchestrator.SignalWaiter | internal/saga/orchestrator.go:279-290 | the first signal wins; without a waiter or with a full buffer it is dropped |
| SagaOrchestrator.Orchestrator.StartAndWait | internal/saga/orchestrator.go:91-124 | the table, cancels, commands and waiters of every return; nil when the first effective reply about the saga is a sent one, the failure when it is a failed one whose compensation worked, the timeout and the context's error exactly when the wait ends so or no reply has an effect; nil means a completed saga, a failure a failed one unless a completion was hidden |
| SagaOrchestrator.Orchestrator.WaitFor | internal/saga/orchestrator.go:113-123 | the replies are handled one after the other; the first effective one about the saga fills the waiter's buffer, with a completion only of a completed saga and a failure only of a failed one unless a completion was hidden |
| SagaOrchestrator.Orchestrator.Compensate | internal/saga/orchestrator.go:206-229 | leaves terminal sagas and all other rows alone, moves the row only along its path, reports success only when the saga is terminal, and without faults fails it and cancels its subscription once |
| SagaOrchestrator.Orchestrator.OnConfirmationSent | internal/saga/orchestrator.go:147-158 | acks only once the saga is not awaiting, and signals only a completion that happened here |
| SagaOrchestrator.Orchestrator.OnConfirmationFailed | internal/saga/orchestrator.go:160-167 | acks only once the saga is terminal, and signals exactly then |
| SagaOrchestrator.Orchestrator.HandleReply | internal/saga/orchestrator.go:127-145 | drops exactly the undecodable replies; for each other kind what becomes of the table, the cancels and the waiters, and the settlement |
| SagaOrchestrator.Orchestrator.Reap | internal/saga/orchestrator.go:170-185 | takes a batch of the oldest awaiting sagas whose deadline is before now and compensates them one after the other until it is cancelled, whatever fails on the way; every other saga stays as it was, and without faults all of the batch are failed |
| SagaOrchestrator.PassTouchesOnlyItsBatch | internal/saga/orchestrator.go:177-184 | with any faults a pass touches no saga outside its batch and completes none |
| SagaOrchestrator.FaultFreeReap | internal/saga/orchestrator.go:170-185 | without faults compensating the batch one by one fails exactly the batch |
| SagaOrchestrator.PassFailsExactlyTheBatch | internal/saga/store.go:110-133 | a fault-free pass fails min(100, n) sagas, changes no other, and leaves none older than one it took |
| SagaOrchestrator.PassLeaves | internal/saga/orchestrator.go:170-185 | a pass at any later time leaves max(0, n - 100) of the n sagas timed out now |
| SagaOrchestrator.PassesLeave | internal/saga/orchestrator.go:188-202 | k passes leave max(0, n - 100k) |
| SagaOrchestrator.UninterruptedRunIsCompensate | internal/saga/orchestrator.go:206-229 | the steps of compensate in the transition system, left alone, reach what the method computes |
| Broker.SettleRemovesOnlyOnAckOrDrop | internal/messaging/consumer.go:122-143 | only an ack or a drop by the current holder removes a message, only that one, and no body changes |
| Ledger.SendsBounded | services/notification/service.go:74-94 | for every key and schedule of W workers the mailer accepts at most W mails plus one per mail whose confirm was lost |
| Ledger.OneWorkerSendsOnce | services/notification/service.go:74-94 | a single worker sends a key twice only if a confirm was lost |
| Ledger.SuccessMeansAccepted | services/notification/service.go:74-94 | a call without an error, deduplicated or not, returns after the mailer accepted a mail with its key |
| Ledger.ConfirmKeyIdentifiesUrl | services/notification/service.go:46-53 | a confirmation key belongs to confirmations of that URL and to nothing else |
| Ledger.ReleaseKeyIdentifiesDelivery | services/notification/service.go:55-66 | release keys agree exactly for the same repository, tag and address, as no repository or tag has a colon |
| Notifier.LedgerStore.Reserve | services/notification/store/postgres.go:60-74 | a key can be reserved exactly while it is not confirmed |
| Notifier.LedgerStore.Confirm | services/notification/store/postgres.go:76-86 | marks an existing row as sent |
| Notifier.Service.ReserveAndSend | services/notification/service.go:74-94 | without an error the key has been accepted, now or before; a confirmed key is not sent again; a failed confirm is not an error |
| Notifier.UninterruptedWorkerDelivers | services/notification/service.go:74-94 | a worker of the ledger protocol, left alone, does what the method does |
| Notifier.Participant.Handle | services/notification/sagaparticipant/participant.go:45-101 | which answer is published for which result, a failed one also for a payload that cannot be decoded or lacks a field; drop exactly for undecodable commands, ack exactly when the answer was accepted |
| EmailQueue.PublishedCommandsDecode | internal/client/notification/publisher.go:39-78 | the consumer decodes every command the publisher writes to the mail it was made for |
| EmailQueue.DroppedAre | services/notification/consumer/consumer.go:44-105 | a command is dropped exactly if it is of neither kind, cannot be decoded, or lacks the address, the repository or, for a confirmation, the link |
| EmailQueue.NoEmailLost | services/notification/consumer/consumer.go:44-105 | every well-formed command ever published is queued or unacked, or a mail with its key was accepted |
| EmailQueue.DroppedNeverMailed | services/notification/consumer/consumer.go:44-105 | a dropped command reached the mailer on no delivery, before or after |
| EmailDelivery.NoCommandIsStuck | internal/messaging/consumer.go:97-143 | after any run with a worker each queued command can still be removed from the queue, and a well-formed one has been mailed by then |
| EmailConsumer.Consumer.Handle | services/notification/consumer/consumer.go:44-105 | drops bad input untouched, requeues exactly on an error of the send, acks only what is accepted |
| EmailConsumer.Consumer.Pump | internal/messaging/consumer.go:97-143 | the delivery loop removes only delivered messages that are served and leaves all others as they were; one that cannot be decoded or meets no fault is removed and one that cannot be reserved is kept, whatever becomes of the others |
| Subscriptions.OneLiveRowPerPair | migrations/000001_init_schema.up.sql:32-34 | at most one live row per address and repository in every interleaving |
| Subscriptions.OneRefresherStarts | internal/subscription/service.go:113-128 | of all calls that read the same pending row and token at most one starts a saga |
| Subscriptions.StartedSagaNamesItsRow | internal/subscription/service.go:90-151 | a started saga names a row of the caller's address and repository to which its token was written, and no two share a token |
| Subscriptions.RefreshWinsIffTokenUnchanged | internal/subscription/repo.go:259-276 | the compare-and-swap is won exactly while the row has the token that was read; a loser changes nothing and starts nothing |
| RefreshRaces.RefreshFindsPendingIffStatusUntouched | internal/subscription/repo.go:50-51 | from the read of a call to its refresh: the row is pending exactly when no status was written to it in between, and otherwise has the last status written |
| RefreshRaces.RefreshWinsIffNoOtherSinceRead | internal/subscription/service.go:113-128 | a refresh wins exactly when it works and no other refresh of the row took effect since the read |
| RefreshRaces.RefreshCanWinOnActiveRow | internal/subscription/repo.go:50-51 | a run in which a refresh replaces the token of a row that was confirmed meanwhile and starts a saga for it |
| RefreshRaces.RefreshCanWinOnUnsubscribedRow | internal/subscription/repo.go:50-51 | the same for a row that was unsubscribed meanwhile, whose link Confirm refuses |
| RefreshRaces.LookupEndsOnlyWhatIsDone | internal/subscription/service.go:153-182 | the lookup ends a Confirm exactly if no row has the token or the row is not pending, an Unsubscribe exactly if no row has it or the row is unsubscribed already; otherwise that row is written |
| RefreshRaces.StatusIsWritten | internal/subscription/repo.go:236-253 | the write gives the row its new status, except that no row becomes active beside a live one of the same address and repository |
| RefreshRaces.UnsubscribedIsFinal | internal/subscription/service.go:153-168 | an unsubscribed row that no Confirm has in hand is unsubscribed in every later state of the run |
| RefreshRaces.ConfirmUnderwayRevives | internal/subscription/service.go:153-168 | any run that leaves an unsubscribed row in the hands of a Confirm can be continued to one in which the row is active |
| RefreshRaces.UnsubscribedCanComeBack | internal/subscription/service.go:153-168 | a run in which a row is unsubscribed and active again later |
| SubscriptionService.Service.ReserveSubscription | internal/subscription/service.go:90-105 | refused exactly when the lookup worked and an active row exists; a reservation is a pending row with the new token; no other row changes; without a fault an error means the token was in use |
| SubscriptionService.Service.RefreshPending | internal/subscription/service.go:113-128 | writes the new token over the one that was read, reports already existing exactly when the row has another token by now, and changes nothing else |
| SubscriptionService.Service.CreatePending | internal/subscription/service.go:130-151 | adds one pending row and changes none, and reports already existing exactly when a live row of the pair is there |
| SubscriptionService.Service.Confirm | internal/subscription/service.go:153-168 | a failed lookup changes nothing, unknown tokens and unsubscribed rows are refused, success means active, no other row changes and none comes back from unsubscribed |
| SubscriptionService.Service.Unsubscribe | internal/subscription/service.go:170-182 | a failed lookup changes nothing, success means unsubscribed, and no other row changes |
| SubscriptionService.Service.Cancel | internal/subscription/sagacanceller.go:25-33 | a missing row counts as cancelled; otherwise the row is unsubscribed and no other changes |
| SubscriptionService.Repo.Create | internal/subscription/repo.go:164-185 | inserts unless the live pair or the token exists, and keeps the table's constraints |
| SubscriptionService.Repo.SwapToken | internal/subscription/repo.go:259-276 | writes only over the expected token, and keeps the table's constraints |
| SubscriptionService.Repo.SetStatus | internal/subscription/repo.go:236-253 | writes unless the row is missing or a live twin exists, and keeps the table's constraints |
| SubscriptionService.Repo.GetEmailsByRepo | internal/subscription/repo.go:212-234 | lists exactly the addresses of the repository's rows with the status active, each row once |
| SubscriptionService.SubscribersAreDistinct | migrations/000001_init_schema.up.sql:32-34 | the partial unique index makes the listed addresses distinct |
| FanOut.FanOutConservesWork | internal/release/poller.go:172-212 | in every interleaving the addresses handed to sendOne are a prefix of the list with multiplicity, the whole list unless cancelled, at most eight at a time, and none is in progress when the call returns |
| FanOut.NeverStuck | internal/release/poller.go:188-211 | until the call has returned some worker or the feeder can take a step |
| FanOut.RunsAreBounded | internal/release/poller.go:188-211 | every schedule ends within a number of steps fixed at the start |
| Poller.AtMostOncePerChange | internal/release/poller.go:139-164 | over all scans and crashes each address gets at most one notice per committed change of a repository, with that change's tag, and only if it was listed for it |
| Poller.ChangesCarryDifferentTags | internal/repository/store.go:23-24 | the history of a repository's tag ends in the stored tag and neighbouring entries differ |
| Poller.FailedPersistIsSilent | internal/release/poller.go:158-161 | a change whose update reported an error is announced to nobody, even if it took effect |
| Poller.CompleteFanOutReachesAll | internal/release/poller.go:172-212 | a fan-out that was not cancelled gives every listed subscriber exactly one notice and nobody else any |
| Poller.NewsIsWhatIsNotStored | internal/release/poller.go:139-164 | in every run a fetched release goes on to be recorded exactly if its tag is not the one stored at that moment |
| Poller.NoticeNeedsActiveRow | internal/release/poller.go:172-212 | in every run a notice goes to an address that had a row of that repository with the status active when the list was read |
| Poller.ActiveRowsAreNotified | internal/release/poller.go:172-212 | after a fan-out that ran to its end every row of the repository that was active when the list was read has got exactly one notice |
| NotifyEndToEnd.ActiveWasConfirmed | internal/subscription/service.go:153-168 | in every run of poller and table together an active row was made so by a Confirm that was given a token written to that row |
| NotifyEndToEnd.NotifiedHaveConfirmed | internal/subscription/repo.go:212-234 | in every run of poller and table together a notice goes only to an address with a row of that repository for which such a Confirm took effect before |
| PollerService.Store.Upsert | internal/repository/store.go:123-131 | tracks a repository once and never changes an existing row |
| PollerService.Store.GetAll | internal/repository/store.go:133-157 | all rows, each once, in the order of their ids |
| PollerService.Store.UpdateLastSeen | internal/repository/store.go:159-168 | changes the tag of one row, and a missing row is an error |
| PollerService.Scanner.NotifySubscribers | internal/release/poller.go:172-212 | every message goes to an address with a row of the repository with the status active, each such row gets one unless the context was cancelled, and nobody gets two |
| PollerService.Scanner.RunPool | internal/release/poller.go:189-211 | any schedule of the worker pool ends, having handed out each address of a prefix of the list once, of the whole list unless cancelled |
| PollerService.Scanner.ScanRepository | internal/release/poller.go:139-164 | in the order of effects the tag is recorded before the first message, and messages go out only when recording reported no error |
| PollerService.Scanner.Scan | internal/release/poller.go:111-137 | a message is about a tag that GitHub gave, that was not the stored one and that was recorded without an error, and goes to a row of the repository with the status active; a scan that is not cut short sends each such row exactly one and leaves GitHub's tags stored; tags are recorded before the first message |
| RateLimiter.DecisionsFollowTheLog | internal/api/rest/middleware/ratelimit.go:69-102 | with cleanups at any moments every decision is a function of the log of past admissions |
| RateLimiter.CleanupIsUnobservable | internal/api/rest/middleware/ratelimit.go:104-123 | the limiter that never cleans up gives the same answers and window ends |
| RateLimiter.AdmissionsAreBounded | internal/api/rest/middleware/ratelimit.go:69-102 | at most 2 * max(limit, 1) - 1 admissions of one address in any closed interval of one window length |
| RateLimiter.BoundIsReached | internal/api/rest/middleware/ratelimit.go:69-102 | for every positive limit and window some history meets that bound |
| RateLimiter.RetryAfterSuffices | internal/api/rest/middleware/ratelimit.go:84-90 | a rejected client that waits as told is admitted if nobody used its address meanwhile |
| RateLimiter.RetryAfterIsLeast | internal/api/rest/middleware/ratelimit.go:84-90 | the seconds it is told are the least whole number after which the window is over |
| RateLimiter.Limiter.Limit | internal/api/rest/middleware/ratelimit.go:69-102 | decides and updates as the history's step does; a rejection changes nothing, happens only inside the window, and comes with the least Retry-After that passes its end |
| RateLimiter.Limiter.Clean | internal/api/rest/middleware/ratelimit.go:112-120 | deleting entry by entry in any order leaves exactly the windows that are not over |
| Sampler.WindowLetsThroughItsQuota | internal/platform/logger/sampling.go:50-67 | n calls in one window let through n, or first + (n - first) / thereafter beyond first, however other calls are interleaved and clock readings ordered |
| Sampler.OtherKeysDoNotMatter | internal/platform/logger/sampling.go:51 | calls of another level or message leave the window alone |
| Sampler.LogSampler.constructor | internal/platform/logger/sampling.go:32-48 | settings that are not positive become the defaults |
| Sampler.LogSampler.Allow | internal/platform/logger/sampling.go:50-67 | updates and answers as the history's step does |
| Publisher.NoConnectionLeaks | internal/messaging/publisher.go:92-126 | between locked sections the open connections are the cached one and late ones of abandoned dials; exactly the cached one if and only if none is late, so always when no dial was abandoned |
| Publisher.BackgroundDrains | internal/messaging/messaging.go:41-48 | from every reachable state the background steps alone end after a bounded number, and where they end exactly the cached connection is open |
| Publisher.AbandonedDialIsOpenForAWhile | internal/messaging/messaging.go:30-53 | a run in which an abandoned dial leaves an open connection that is not cached |
| Publisher.ChannelsAreReady | internal/messaging/publisher.go:111-124 | the cached channel and every channel in use has confirms enabled and the topology declared |
| Publisher.ReplacedForCause | internal/messaging/publisher.go:140-161 | a channel stops being cached only if it died, a publish on this very channel failed, or the publisher was closed |
| Publisher.FailureClosesOnlyItsOwn | internal/messaging/publisher.go:140-147 | a failure on a channel that is no longer cached changes nothing; on the cached one it closes its connection |
| Publisher.HandedOutIsAlive | internal/messaging/publisher.go:92-138 | in every run a channel that getChannel hands out is alive and on an open connection, and a cached channel that is alive is handed out as it is |
| Publisher.DeadChannelIsReplaced | internal/messaging/publisher.go:92-126 | in every run, without an alive cached channel, a redial that gets through hands out a channel newer than any before, and any other hands out none and leaves nothing cached |
| Publisher.Connection.Channel | internal/messaging/publisher.go:92-126 | a cached channel that is alive is returned as it is; otherwise a newer one on an open connection with the whole topology declared exactly if the redial gets through, and none if not; a returned channel is alive |
| Publisher.Connection.DeclareTopology | internal/messaging/messaging.go:55-83 | fails exactly when one of the declarations does, and otherwise exchange, queue and all bindings exist |
| Publisher.Connection.ResetLocked | internal/messaging/publisher.go:150-161 | closes and clears channel and connection together |
| Publisher.Connection.ResetFailed | internal/messaging/publisher.go:140-147 | resets only if the failed channel is the cached one |
| RepositoryRef.OwnerPatternMeans | internal/repository/ref.go:13-14 | the owner pattern accepts exactly the non-empty alphanumeric strings with single inner hyphens |
| RepositoryRef.ValidRefsAre | internal/repository/ref.go:11-34 | which owners and names are accepted, by length and by character |
| RepositoryRef.ParseUndoesToString | internal/repository/ref.go:22-36 | parsing the text of a valid reference gives it back |
| RepositoryRef.ToStringUndoesParse | internal/repository/ref.go:22-36 | a parsed reference is valid and prints as it was read; what is refused is the text of no valid reference |
| GithubCache.KeysIdentify | internal/client/github/cached.go:48-76 | queries for valid repositories share a key exactly when they are the same query |
| GithubCache.InvalidNamesCanShareAKey | internal/client/github/cached.go:76 | two different repositories, not valid as names, that share a key |
| GithubCache.CachedAnswersAreHonest | internal/client/github/cached.go:47-111 | negative answers and errors are the base client's answer to this call; any other answer is the base client's for the same query, stored at most ttl before |
| GithubCache.CachedAnswersAreFresh | internal/client/github/cached.go:47-111 | with a positive ttl a cached answer was given at most ttl before, plus the time it took to store it |
| GithubCache.AgesAreReached | internal/client/github/cached.go:64-70 | every age within that bound is reached, and any age at all without a ttl |
| GithubCache.PositiveAnswersAreServed | internal/client/github/cached.go:47-111 | a positive answer that was stored answers the same query without the base client until it is evicted, overwritten or older than the ttl; no other answer is stored |
| GithubCache.CachedClient.RepoExists | internal/client/github/cached.go:47-73 | when the base client is asked, what is returned and what is stored, negative answers never |
| GithubCache.CachedClient.GetLatestRelease | internal/client/github/cached.go:75-111 | the same, with entries that cannot be decoded as misses |
| TraceContext.ParserMeetsTheForm | internal/platform/tracectx/tracectx.go:99-123 | the parser accepts exactly the 55 character form by position, letters in either case, ids not all zero, and returns the trace id in lower case |
| TraceContext.PaddingIsTrimmed | internal/platform/tracectx/tracectx.go:99-103 | spaces around a header are cut off, and nothing else is |
| TraceContext.ParseUndoesPrint | internal/platform/tracectx/tracectx.go:52-64 | parsing what is printed gives the id back for every parent id that is not all zero, and nothing for the zero one |
| TraceContext.PrintMeetsStandard | internal/platform/tracectx/tracectx.go:52-64 | what is printed is a version 00 header of the standard with the given ids and the sampled flag, unless the parent id is zero |
| TraceContext.ParserAgainstStandard | internal/platform/tracectx/tracectx.go:99-123 | an accepted header meets the standard exactly when its version is not ff and it has no upper-case letter; one that meets the standard is accepted, with its id, exactly when it has no further fields |
| TraceContext.ForbiddenVersionIsAccepted | internal/platform/tracectx/tracectx.go:108-110 | a header of version ff is accepted and does not meet the standard |
| TraceContext.FurtherFieldsAreRefused | internal/platform/tracectx/tracectx.go:104-107 | a header of a higher version with a further field meets the standard and is refused |
| TraceContext.ChosenIdIsTheRequests | internal/api/rest/middleware/trace.go:22-30 | for every request: the trace id of a good traceparent, as it stands if the header meets the standard; else a safe request id without the spaces around it; else what was drawn |
| TraceContext.DrawMattersIffNeitherHeaderIsGood | internal/api/rest/middleware/trace.go:22-30 | the chosen id depends on the draw exactly when neither header can be used |
| TraceContext.ServerReads | services/notification/grpcserver/server.go:135-152 | for every metadata: the trace id of a good traceparent, else a safe request id, else none |
| TraceContext.SafeIdsAre | internal/platform/tracectx/tracectx.go:79-92 | an id from outside is kept exactly if it has one to 64 letters, digits, hyphens, underscores and dots |
| TraceContext.HopKeepsTheId | services/notification/grpcserver/server.go:138-152 | for any headers and any draws the id chosen by the HTTP middleware is the id the gRPC server recovers, and it is the request's own wherever the request has one |
| TraceContext.ChosenIdIsSafe | internal/api/rest/middleware/trace.go:22-30 | every id the middleware chooses passes the check for external ids |
| TraceContext.NewTraceparent | internal/platform/tracectx/tracectx.go:52-64 | drawing until the parent id is not zero gives a header that meets the standard and parses back, exactly for valid ids |

## Left out

- Liveness of the saga: `SagaRescue.FailsUnlessStranded` says when a saga can still come to be failed, not that it will under fair scheduling.
- Two pollers on one database: the scan lock is per process, and the model has one process.
- Poller.AtMostOncePerChange: counts calls of SendReleaseNotification, each of which publishes at most once; the publish itself is modelled in `Publisher` and the queue in `EmailQueue`.
- Publisher.ChannelsAreReady: does not model the confirmation of a single publish; acceptance by the broker is an `Outcome` of the publish in the other machines.
- RateLimiter.RetryAfterSuffices: takes the seconds of a duration as an exact quotient and not as a float64.
- Sampler.WindowLetsThroughItsQuota: takes level names as given strings without a zero character; the naming of levels belongs to the logging library.
- clientIP of the rate limiter, which picks the address from two headers or the socket; the model takes the address as given.
- Statement preparation under a mutex, constructors that refuse nil, configuration, metrics, health, API key and log redaction: none of them touches the state modelled here.
- AMQP, Postgres, Redis, SMTP, HTTP and gRPC libraries: each is its contract, an atomic statement, an at-least-once queue or a call with an `Outcome`.
- GitHub retry waits, email templates and email address parsing: they decide the content of a call and not its place in a protocol.
- JSON, SHA-256 and random draws: taken as injective, or as parameters.
