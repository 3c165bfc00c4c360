# Verification of the bus tester

A Dafny model of the four stateful parts of the bus tester, and proofs of what they keep over whole runs.

1. **Subscription and delivery protocol (server).** `Domain`, `Coordinator` and `Adapter` hold the message, the
   per-handle buffers and the RabbitMQ adapter; `UseCases` runs subscribe, unsubscribe and send-with-reply over
   them without interruption. `Protocol` is the same protocol as interleaved steps, one step per stretch between
   two awaits, for any number of operations and consumers. `ProtocolHandles`, `ProtocolChannels`,
   `ProtocolRegistry`, `ProtocolConnections` and `ProtocolDelivery` are invariants of every run;
   `ProtocolSequential` maps the protocol's state to the use cases' and proves that the steps run in a row do what
   the use cases do; `ProtocolWitnesses` has runs that reach what is not ruled out. `EndToEnd` composes the protocol
   with SignalR groups, a push channel that may lose but neither repeats nor reorders, and the browser's store;
   `EndToEndPath` follows one message, field by field.
2. **Live feed (client).** `HubService` is the store, `Feed` the feed as a state machine with explicit reads of a
   lazily computed linked signal, `FeedProperties` what holds in every session, `FeedHistory` what the feed
   holds in terms of the user's and the server's steps alone, `FeedSearch` the search box, `MessagesComponent` the
   component in imperative form.
3. **Class reconciliation (`hlm.ts`).** `ClassList` parses class strings through a shared cache, `ClassMerge` is
   the merge (right to left, a class is dropped when its group is taken, only kept classes take groups),
   `ClassEngine` one element's engine with its observer, `ElementClassManager` the same in imperative form,
   `ClassReference` its sources read from the steps alone, and `ClassSettling` the results about the feedback loop.
4. **Send panel (client).** `Headers` merges and splits custom headers, `SendHistory` keeps recent sends and
   templates, `SendPanel` is the panel as a state machine over handlers, HTTP answers and effect flushes,
   `SendInputs` says what typing leads to, `SendDrafts` and `SendRecords` what every run keeps of drafts and of the
   history, and `SendComponent` is the component in imperative form.

State machines are total: a step whose guard fails changes nothing, so every list of steps is a run. Records of
what happened (`Log`, `Session`) serve the statements only. The classes that follow the source's own objects
have a `View()`, and their operations are proved to make exactly one step of the machine (or to compute exactly
the specified part of one), so what is proved of runs holds of the imperative code.

Parameters rather than code: which broker calls fail (`Faults`); the merge's group and conflict tables (`Merger`);
`toLowerCase`; generated correlation ids, handles and subscription ids; time stamps; the user's answer to the
overwrite prompt; and when pushes, HTTP answers and observer callbacks arrive.

## Where the code and its promises part

Each entry names the theorem with the exact condition and, where there is one, a run that reaches the failure.

- "All or nothing" for send-with-reply (src/BusTester.Application/UseCases/SendMessageWithReplyUseCase.cs:58-69)
  fails for a message the constructor refuses, since it is built after registration and before the `try`, and for
  a cleanup that throws: `UseCases.FailureRestoresExactlyWhen`, `UseCases.BlankPayloadLeavesHandleRegistered`.
- Teardown never unregisters, so a registered handle may have no channel: `ProtocolRegistry.RegisteredWithoutChannel`,
  `ProtocolWitnesses.TeardownLeavesHandlesRegistered`.
- A teardown that fails leaves the map, so a later one disposes of the same channels again: `ProtocolChannels.ReleasedTwiceExactlyWhen`,
  `ProtocolWitnesses.FailedTeardownDisposesTwice`.
- The map may hold a dead channel of an earlier connection, when a reconnect overtakes a subscribe or closes the
  connection under a channel inserted meanwhile: `ProtocolConnections.MappedIsCurrentExactlyWhen`,
  `ProtocolWitnesses.ReconnectOvertakesSubscribe`, `ProtocolWitnesses.ReconnectOvertakesInserted`.
- JavaScript's `trim` and .NET's `IsNullOrWhiteSpace` differ in one character each. A payload of next-line
  characters is posted and refused: `SendPanel.PostedIsAccepted`, `SendPanel.NextLinePayloadIsPostedAndRefused`.
- "Unsaved edits are never silently overwritten" (frontend/src/app/features/send/send.component.ts:189-191): a plain
  send's answer captures the form as it then is, not as it was posted, so edits made while the send was in flight
  count as saved. `SendDrafts.NoSilentOverwrite`, `SendDrafts.LateAnswerHidesEdits`.
- The dirty check leaves out the reply's correlation id, which can be edited too: that edit never makes a draft
  ask, and is replaced (`SendDrafts.CorrelationEditsAreUnguarded`).
- A cleared draft restarts its numbers: `SendDrafts.ClearHidesNextDraft`. Only
  frontend/src/app/core/reply-draft.service.spec.ts:47 calls `clear()`, so the panel itself never takes this step.
- Restoring and resolving headers is the identity exactly on sendable ones: not blank, and not named `__proto__`,
  which an assignment cannot create (`Headers.RestoreThenResolve`).
- Two requests in flight for one queue give two chips: `FeedProperties.GuardExactlyWhen`,
  `FeedProperties.OverlappingRequestsDuplicate`.
- A reply recalled from the history cannot be sent as it is: `SendRecords.RecalledReplyIsNotSendable`,
  `SendRecords.RepliesAreRecorded`.

## Model

| member | source | states |
|---|---|---|
| EndToEnd.StoredIsSubsequenceOfEnqueued | src/BusTester.Application/Subscriptions/SubscriptionCoordinator.cs:27-36 | In every run of server, groups, lossy push channel and browser, what the client stores for a subscription, read oldest first, is a subsequence of what the coordinator enqueued for that handle, mapped as the DTO says. |
| EndToEnd.StoredMessagesBelong | src/BusTester.Infrastructure/SignalRMessageBroadcaster.cs:20-51 | Every message the client stores under an id carries, field by field, a message enqueued for that very handle; a missing routing key becomes an empty one. |
| EndToEndPath.OneDeliveryArrives | src/BusTester.Infrastructure/RabbitMqAdapter.cs:242-254 | From the broker to the browser: once the browser is in the group, an accepted delivery for a registered handle is put first in its store, under that handle, with exchange (the default one by its own name), routing key, body, ReplyTo and CorrelationId as they came. |
| EndToEndPath.DeliveryIsBufferedAndPushed | src/BusTester.Application/Subscriptions/SubscriptionCoordinator.cs:27-36 | On the way it is buffered last with the same fields, and pushed exactly to a browser in the group. |
| EndToEndPath.RefusedDeliveryIsLost | src/BusTester.Infrastructure/RabbitMqAdapter.cs:242-254 | A delivery with a blank body or a white-space exchange leaves no trace anywhere. |
| EndToEndPath.SubscribedListens | src/BusTester.Application/UseCases/SubscribeUseCase.cs:24-38 | An uninterrupted subscribe leaves a consumer for which the above holds. |
| EndToEndPath.JoinedExactlyWhen | src/BusTester.Infrastructure/BusHub.cs:11-17 | After any run the browser is in exactly the groups it joined and neither left, nor lost with its connection, since. |
| EndToEndPath.ClearEmpties | frontend/src/app/core/bus-hub.service.ts:89-91 | Clearing a subscription empties its list in the store, leaves every other one, and touches neither wire nor groups. |
| EndToEnd.EverythingArrives | src/BusTester.Infrastructure/BusHub.cs:11-17 | Completeness: as long as the browser stays in the group, clears nothing of it and nothing is lost, what is stored or on the wire grows by exactly what is broadcast, in order. |
| EndToEnd.StoredMessagesWereDelivered | src/BusTester.Infrastructure/RabbitMqAdapter.cs:242-254 | Nothing is invented on the way: each stored message has, field by field, what some accepted delivery came with, so it names an exchange and its payload is not blank. |
| EndToEnd.ServerRunsTheProtocol | src/BusTester.Infrastructure/BusHub.cs:11-17 | Joins, leaves, pushes and losses never influence the server: its part of a run is a run of the protocol. |
| ProtocolDelivery.BufferIsAcceptedDeliveries | src/BusTester.Application/Subscriptions/SubscriptionCoordinator.cs:23-36 | In every interleaving a handle's queue is exactly, and in order, the deliveries whose lookup ran after Register and before Unregister, up to one found but not yet enqueued; the reference reads only the event log. |
| ProtocolDelivery.BroadcastsFollowTheBuffer | src/BusTester.Application/Subscriptions/SubscriptionCoordinator.cs:34-35 | The broadcasts of a handle are its queue, or its queue without the last message. |
| ProtocolDelivery.MessagesAreTheBuffer | src/BusTester.Application/Subscriptions/SubscriptionCoordinator.cs:38-39 | GetMessages answers that queue while the handle's window is open and nothing before or after. |
| ProtocolDelivery.UnregisteredLookupDrops | src/BusTester.Application/Subscriptions/SubscriptionCoordinator.cs:29-36 | In every run a message is buffered for a handle, or about to be, exactly if some lookup of it ran while the handle was registered, and only such messages are broadcast: a lookup outside the window leaves no trace. |
| ProtocolDelivery.RunKeepsDelivery | src/BusTester.Application/UseCases/SubscribeUseCase.cs:24-38 | Consumers, handles and queues belong together one to one, and every handle's buffer and broadcasts match the event log, after every interleaved run. |
| ProtocolHandles.LiveHandlesAreCovered | src/BusTester.Application/UseCases/SubscribeUseCase.cs:34-37 | In every reachable state a handle in the adapter's map is registered, or belongs to a subscribe or send-with-reply between insertion and registration; reconnects and failed closes included. |
| ProtocolHandles.QuiescentHandlesAreRegistered | src/BusTester.Application/UseCases/UnsubscribeUseCase.cs:22-26 | With no operation in flight, whichever closes and disconnects threw before, no live channel feeds an unregistered handle. |
| ProtocolRegistry.RegisteredWithoutChannel | src/BusTester.Infrastructure/RabbitMqAdapter.cs:77-97 | In every run a registered handle has no channel exactly if it was taken once: by a teardown, or by an unsubscribe that is not through with it, could not close it, or unregistered it before the subscribe registered it. |
| ProtocolRegistry.QuiescentWithoutChannel | src/BusTester.Infrastructure/RabbitMqAdapter.cs:275-295 | With nothing in flight: exactly if a teardown took it, an unsubscribe's close of it threw, or it was unregistered too early. |
| ProtocolWitnesses.TeardownLeavesHandlesRegistered | src/BusTester.Infrastructure/RabbitMqAdapter.cs:77-97 | A run in which nothing fails (connect, subscribe, disconnect) ends with a registered handle and no channel. |
| ProtocolHandles.RunKeepsHandles | src/BusTester.Application/UseCases/SendMessageWithReplyUseCase.cs:50-69 | The handle invariant, which also gives each opening operation its own handle and keeps a handle being closed out of the map, holds after every run. |
| ProtocolChannels.ChannelsReleasedOnce | src/BusTester.Infrastructure/RabbitMqAdapter.cs:275-295 | Under every interleaving of unsubscribes and teardowns at lock granularity, failed closes included, a registered channel that left the map was taken out by exactly one operation; it was disposed by each teardown that had reached it and then failed at another channel, in order, and then once by its taker, unless that one still closes it or could not. |
| ProtocolChannels.RegisteredChannelsUntouched | src/BusTester.Infrastructure/RabbitMqAdapter.cs:77-97 | A channel in the map was taken out by nobody, and was disposed exactly by the teardowns that had reached it and then failed elsewhere, and by the one holding the lock if it has reached it; failed closes included. |
| ProtocolChannels.ReleasedTwiceExactlyWhen | src/BusTester.Infrastructure/RabbitMqAdapter.cs:79-97 | A channel is disposed more than once exactly if two teardowns reached it and then failed at another channel, or one did and then either, still in the map, another teardown at work is past it, or, out of the map, its one taker is through with the close and could do it. |
| ProtocolChannels.ChannelsPaired | src/BusTester.Infrastructure/RabbitMqAdapter.cs:259-273 | No channel was ever registered under two handles. |
| ProtocolWitnesses.FailedTeardownDisposesTwice | src/BusTester.Infrastructure/RabbitMqAdapter.cs:79-97 | A run with two subscriptions in which a teardown fails and the next one disposes a channel again. |
| ProtocolChannels.RunKeepsChannels | src/BusTester.Infrastructure/RabbitMqAdapter.cs:77-111 | The structure of map, lock and operations, and the account of every channel's releases, hold after every run. |
| ProtocolSequential.OpensOneSubscription | src/BusTester.Application/UseCases/SubscribeUseCase.cs:24-38 | The interleaved steps in a row are the use case: one open channel on the captured connection enters the map, listens for its handle, the handle is registered empty, nothing else moves. |
| ProtocolSequential.ClosesOneSubscription | src/BusTester.Application/UseCases/UnsubscribeUseCase.cs:22-26 | The steps of an unsubscribe in a row take exactly one channel out of the map, close it and unregister its handle. |
| ProtocolSequential.SubscribeCommutes | src/BusTester.Application/UseCases/SubscribeUseCase.cs:24-38 | The protocol's steps of a subscribe in a row, whichever calls fail, do to connection, channels and coordinator exactly what the use case does. |
| ProtocolSequential.UnsubscribeCommutes | src/BusTester.Application/UseCases/UnsubscribeUseCase.cs:22-26 | So do those of an unsubscribe of any handle, its close throwing or not. |
| ProtocolSequential.SendWithReplyCommutes | src/BusTester.Application/UseCases/SendMessageWithReplyUseCase.cs:33-72 | So do those of a send-with-reply, with the message refused, the publish failing and the cleanup failing. |
| ProtocolSequential.TeardownCommutes | src/BusTester.Infrastructure/RabbitMqAdapter.cs:77-111 | The steps of a teardown in a row, whichever closes fail and in whatever order the channels come, leave what the adapter's `Teardown` is proved to leave, and the coordinator as it was. |
| ProtocolSequential.ConnectCommutes | src/BusTester.Infrastructure/RabbitMqAdapter.cs:36-68 | So do those of a connect, its teardown or its connection failing. |
| ProtocolConnections.MappedIsCurrentExactlyWhen | src/BusTester.Infrastructure/RabbitMqAdapter.cs:92-110 | In every reachable state every channel in the map was inserted by some subscribe, and it is the current connection's exactly if the connection never changed since that subscribe captured it, before the insertion or after. |
| ProtocolConnections.CurrentExactlyWhen | src/BusTester.Infrastructure/RabbitMqAdapter.cs:181-194 | The same for any way to cut the run at the capture and the insertion: the channel is forever the captured connection's, and that one is current exactly if it was never replaced. |
| ProtocolConnections.EveryChannelWasInserted | src/BusTester.Infrastructure/RabbitMqAdapter.cs:259-273 | Every channel ever registered was inserted by an operation that captured a connection and was in flight all the time in between. |
| ProtocolConnections.ChannelsAreCurrent | src/BusTester.Infrastructure/RabbitMqAdapter.cs:176-195 | What callers can arrange: in every run in which no subscribe is in flight before its insertion while a connect or disconnect is past the lock, every channel in the map is the current connection's. |
| ProtocolWitnesses.ReconnectOvertakesSubscribe | src/BusTester.Infrastructure/RabbitMqAdapter.cs:181-194 | A run in which a reconnect overtakes a subscribe and the map ends up with a closed channel of the old connection. |
| ProtocolWitnesses.ReconnectOvertakesInserted | src/BusTester.Infrastructure/RabbitMqAdapter.cs:92-110 | A run in which a channel is the current connection's when inserted, between a reconnect's lock and its closing of the connection, and is dead in the map afterwards. |
| UseCases.SuccessPublishesOnce | src/BusTester.Application/UseCases/SendMessageWithReplyUseCase.cs:50-71 | A successful send-with-reply published exactly one valid message, with the caller's target, routing key, payload and headers, ReplyTo the declared queue and the returned correlation id, which is the caller's if there is one that is not blank and the generated one otherwise; the fresh handle is live in adapter and coordinator. |
| UseCases.SucceedsExactlyWhen | src/BusTester.Application/UseCases/SendMessageWithReplyUseCase.cs:33-72 | It succeeds exactly if the broker can do request-reply, the reply queue can be attached, the message can be built, it has a routing key that is not blank, and it can be published: on the default exchange without asking for it, on another if it exists. |
| UseCases.FailureTellsTheCause | src/BusTester.Application/UseCases/SendMessageWithReplyUseCase.cs:37-69 | A failure is answered with its first cause, unless the cleanup's close throws, which then hides it. |
| UseCases.SubscribesExactlyWhen | src/BusTester.Application/UseCases/SubscribeUseCase.cs:24-38 | A subscribe succeeds exactly if connection, channel and consumer can be had; its fresh handle is then live in adapter and coordinator, and else both handle sets are as before. |
| UseCases.FailurePublishesNothing | src/BusTester.Application/UseCases/SendMessageWithReplyUseCase.cs:60-69 | A failed one published nothing, whatever failed. |
| UseCases.FailureRestoresExactlyWhen | src/BusTester.Application/UseCases/SendMessageWithReplyUseCase.cs:37-69 | A failed one leaves both handle sets as before if and only if no handle was drawn, or the message could be built and the cleanup's close does not throw. |
| UseCases.BlankPayloadLeavesHandleRegistered | src/BusTester.Application/UseCases/SendMessageWithReplyUseCase.cs:50-60 | A blank payload leaves a new handle in adapter and coordinator. |
| UseCases.UnsupportedTouchesNothing | src/BusTester.Application/UseCases/SendMessageWithReplyUseCase.cs:37-50 | A send-with-reply changes nothing at all exactly if the capability, the connection or the channel is missing, and only the missing capability is reported as such. |
| UseCases.UnsubscribeUndoesSubscribe | src/BusTester.Application/UseCases/UnsubscribeUseCase.cs:22-26 | Subscribe then unsubscribe restores both handle sets exactly when the close does not throw. |
| UseCases.SendWithReplyKeepsValid | src/BusTester.Application/UseCases/SendMessageWithReplyUseCase.cs:33-72 | After any outcome every open and every registered channel belongs to the current connection and no future handle is registered. |
| UseCases.UseCaseHost.HandleSubscribe | src/BusTester.Application/UseCases/SubscribeUseCase.cs:24-38 | The calls in the source's order give the specified world and answer, every failure included. |
| UseCases.UseCaseHost.HandleUnsubscribe | src/BusTester.Application/UseCases/UnsubscribeUseCase.cs:22-26 | Adapter first, then coordinator; a close that throws leaves the handle registered. |
| UseCases.UseCaseHost.HandleSendWithReply | src/BusTester.Application/UseCases/SendMessageWithReplyUseCase.cs:33-72 | Gate, declare, register, build, send and compensation in the source's order give the specified world and answer. |
| Adapters.DetachUndoesAttach | src/BusTester.Infrastructure/RabbitMqAdapter.cs:259-295 | Unsubscribing a new subscription restores the map and connection, and the open channels exactly when the close does not throw. |
| Adapters.AttachKeepsValid | src/BusTester.Infrastructure/RabbitMqAdapter.cs:176-226 | Run one at a time, both ways to subscribe keep every registered and open channel on the current connection. |
| Adapters.DetachKeepsValid | src/BusTester.Infrastructure/RabbitMqAdapter.cs:275-295 | So does an unsubscribe, whether or not its close throws. |
| Adapters.RabbitMqAdapter.CloseChannels | src/BusTester.Infrastructure/RabbitMqAdapter.cs:79-97 | The loop throws exactly if some open registered channel refuses to close; the map is emptied only if none does, and then none of its channels is open. |
| Adapters.RabbitMqAdapter.Teardown | src/BusTester.Infrastructure/RabbitMqAdapter.cs:77-111 | Goes through exactly if no open registered channel and not the connection refuses to close; then no channel is open, the map is empty and there is no connection; when not, which channels may be closed and what is left. |
| Adapters.RabbitMqAdapter.Connect | src/BusTester.Infrastructure/RabbitMqAdapter.cs:36-68 | Exactly: a failed teardown's state, or an empty map, no open channel, and a connection never used before, or none if it was refused. |
| Adapters.RabbitMqAdapter.Subscribe | src/BusTester.Infrastructure/RabbitMqAdapter.cs:176-195 | The specified new channel and handle, or the specified error. |
| Adapters.RabbitMqAdapter.DeclareTemporaryReplyQueueAndSubscribe | src/BusTester.Infrastructure/RabbitMqAdapter.cs:197-226 | Also the queue name declared on that channel. |
| Adapters.RabbitMqAdapter.Unsubscribe | src/BusTester.Infrastructure/RabbitMqAdapter.cs:275-295 | Out of the map first, then closed; unknown handles are accepted. |
| Adapters.RabbitMqAdapter.Send | src/BusTester.Infrastructure/RabbitMqAdapter.cs:113-174 | A blank routing key is refused before the connection is asked for; the default exchange is not declared; one publish on success, none otherwise. |
| Coordinators.RegistryOpsAreLocal | src/BusTester.Application/Subscriptions/SubscriptionCoordinator.cs:23-25 | Registering starts empty, unregistering forgets, and no other handle's messages move. |
| Coordinators.SubscriptionCoordinator.OnMessageReceived | src/BusTester.Application/Subscriptions/SubscriptionCoordinator.cs:27-36 | Buffers last and broadcasts once for a registered handle, has no effect otherwise. |
| Coordinators.SubscriptionCoordinator.RegisterHandle | src/BusTester.Application/Subscriptions/SubscriptionCoordinator.cs:23 | A new empty queue, also for a handle registered before. |
| Coordinators.SubscriptionCoordinator.UnregisterHandle | src/BusTester.Application/Subscriptions/SubscriptionCoordinator.cs:25 | The handle is forgotten; its queue stays with a delivery that already found it. |
| Coordinators.SubscriptionCoordinator.Messages | src/BusTester.Application/Subscriptions/SubscriptionCoordinator.cs:38-39 | The registered handle's queue, or nothing. |
| Domain.ConstructExactly | src/BusTester.Domain/BusMessage.cs:34-65 | Exactly the fields of a valid message (target empty or not blank, payload not blank, neither null) are accepted, and all six are carried over. |
| Domain.DeliveryExactly | src/BusTester.Infrastructure/RabbitMqAdapter.cs:242-254 | A delivery is accepted exactly if its body is not blank and its exchange is the default one or not blank; every property is carried over under its own name. |
| Domain.DeliveredNamesExchange | src/BusTester.Infrastructure/RabbitMqAdapter.cs:242-254 | What a delivery maps to is a valid message with a non-empty exchange name, a routing key and no headers. |
| Domain.BlankDiffers | src/BusTester.Domain/BusMessage.cs:49-57 | Of the strings the browser does not call blank, .NET calls blank exactly the white space with a next-line character. |
| HubService.ClearIsLocal | frontend/src/app/core/bus-hub.service.ts:89-91 | Clearing one subscription empties its list and leaves every other list as it was, order included. |
| HubService.BusHubService.OnMessageReceived | frontend/src/app/core/bus-hub.service.ts:52-55 | Newest first, with the next number. |
| HubService.BusHubService.Start | frontend/src/app/core/bus-hub.service.ts:62-76 | The connection is started at most once, whatever became of the first start. |
| HubService.BusHubService.ClearMessages | frontend/src/app/core/bus-hub.service.ts:89-91 | One subscription is cleared; numbering goes on. |
| FeedProperties.EverythingDecreasing | frontend/src/app/features/messages/messages.component.ts:83-120 | In every session store, displayed rows and search results have strictly decreasing numbers below the next one, and a search shows exactly the displayed rows whose payload, routing key or exchange contains the trimmed term, in lower case. |
| FeedSearch.TrimExactly | frontend/src/app/features/messages/messages.component.ts:109 | Trimming cuts off only white space, and all of it at either end. |
| FeedSearch.MatchesExactly | frontend/src/app/features/messages/messages.component.ts:114-119 | A row matches exactly if the term stands somewhere in one of the three fields. |
| FeedHistory.StoredExactlyWhen | frontend/src/app/core/bus-hub.service.ts:52-55 | In every session the store holds exactly the messages pushed and not cleared since, numbered in the order they came. |
| FeedHistory.ChipExactlyWhen | frontend/src/app/features/messages/messages.component.ts:175-177 | The chips are exactly the requests answered and not unsubscribed since, each with the queue of its own request. |
| FeedHistory.ReplyExactlyWhen | frontend/src/app/core/reply-subscription.service.ts:21-27 | The reply panel awaits exactly the requests answered and not removed since. |
| FeedHistory.AnswersEndRequests | frontend/src/app/features/messages/messages.component.ts:175-190 | While a queue is requested once at most, an answer ends just its own request, and only a success adds a chip, last. |
| FeedProperties.PauseRefinesSpec | frontend/src/app/features/messages/messages.component.ts:90-106 | The lazily memoised feed shows in every read what a memo-free specification says: while an odd number of pause clicks was made the last read again, otherwise what is visible now. |
| FeedProperties.PausedByClicks | frontend/src/app/features/messages/messages.component.ts:137-139 | In every session the feed is paused exactly after an odd number of clicks. |
| FeedProperties.NewRowsExactly | frontend/src/app/features/messages/messages.component.ts:92-103 | An unpaused recomputation flags exactly the rows no unpaused recomputation showed before; one that resumes a pause some read saw flags none. |
| FeedProperties.FlaggedAtMostOnce | frontend/src/app/features/messages/messages.component.ts:83-104 | What one unpaused recomputation showed, a later one never flags: each number is flagged at most once, and one first shown by a resume never. |
| FeedProperties.CountsAreConserved | frontend/src/app/features/messages/messages.component.ts:74-86 | Unless the server repeats an id, the chip counts sum to the length of the visible list. |
| FeedProperties.UnsubscribeLowersSum | frontend/src/app/features/messages/messages.component.ts:200-206 | Unsubscribing a chip lowers that sum by exactly the chip's own count. |
| FeedProperties.ReplyNotInFeed | frontend/src/app/features/messages/messages.component.ts:83-86 | Unless ids repeat, no reply is in the feed, however many are awaited. |
| FeedProperties.ReplyListsDisjoint | frontend/src/app/features/messages/messages.component.ts:128-135 | Unless ids repeat, no message answers two requests. |
| FeedProperties.UnsubscribeIsLocal | frontend/src/app/features/messages/messages.component.ts:200-224 | Unsubscribing one chip or reply leaves every other chip's and reply's list as it was, order included, and takes just its own messages out of the feed. |
| FeedProperties.UnsubscribeRemovesExactly | frontend/src/app/features/messages/messages.component.ts:200-224 | Exactly the one chip goes, or exactly the one awaited reply. |
| FeedProperties.ChipQueuesDistinct | frontend/src/app/features/messages/messages.component.ts:158-177 | As long as no queue is requested again while its request is in flight, no two chips name one queue. |
| FeedProperties.GuardExactlyWhen | frontend/src/app/features/messages/messages.component.ts:68-70 | Asking for a queue keeps the names of chips and requests distinct exactly if no request for it is in flight. |
| FeedProperties.OverlappingRequestsDuplicate | frontend/src/app/features/messages/messages.component.ts:162-177 | From any state with a request in flight and no chip for its queue, asking again gives two chips for that queue. |
| MessagesComponents.MessagesComponent.DisplayState | frontend/src/app/features/messages/messages.component.ts:90-104 | Reading recomputes only if a dependency was set since, and makes exactly the machine's Read step. |
| MessagesComponents.MessagesComponent.SubscribeToQueue | frontend/src/app/features/messages/messages.component.ts:158-176 | A queue that has a chip is not requested; otherwise one request goes out. |
| MessagesComponents.MessagesComponent.OnSubscribed | frontend/src/app/features/messages/messages.component.ts:176-177 | The answer appends one chip, with the queue name of its own request. |
| MessagesComponents.MessagesComponent.FinishUnsubscribe | frontend/src/app/features/messages/messages.component.ts:200-206 | Messages and chip of one id go, nothing else. |
| MessagesComponents.MessagesComponent.FinishUnsubscribeReply | frontend/src/app/features/messages/messages.component.ts:218-224 | Messages and pending reply of one id go, nothing else. |
| MessagesComponents.MessagesComponent.IsNewRow | frontend/src/app/features/messages/messages.component.ts:154-156 | Whether the current display flags the row. |
| MessagesComponents.MessagesComponent.Toggle | frontend/src/app/features/messages/messages.component.ts:137-139 | Pausing by itself recomputes nothing. |
| MessagesComponents.AwaitReply | frontend/src/app/features/send/send.component.ts:327-332 | An answered send-with-reply adds one awaited reply to the feed, last, and leaves rows, chips and memo alone. |
| MessagesComponents.ReplySubscriptionService.Remove | frontend/src/app/core/reply-subscription.service.ts:25-27 | Every pending reply of that subscription goes, the others keep their order. |
| ClassList.ParseJoin | frontend/libs/ui/utils/src/lib/hlm.ts:291-307 | Parsing the text of a list of words gives those words back: a class string read back is the list written. |
| ClassList.ParseWords | frontend/libs/ui/utils/src/lib/hlm.ts:297-299 | Whatever the text, every class is non-empty and has no blank. |
| ClassList.ParseSeparates | frontend/libs/ui/utils/src/lib/hlm.ts:297-299 | Whatever blanks there are: a blank only separates, nothing has no class, a word is one class. |
| ClassList.ParseValues | frontend/libs/ui/utils/src/lib/hlm.ts:291-299 | A list argument gives the classes of its strings, one after the other. |
| ClassList.ClassListCache.ToClassList | frontend/libs/ui/utils/src/lib/hlm.ts:291-307 | The cache is transparent: a hit and a miss both give the uncached parse; at most 1000 entries; only strings are cached; a hit hands out the shared array itself. |
| ClassList.ClassListCache.ParseAll | frontend/libs/ui/utils/src/lib/hlm.ts:288-307 | Over any sequence of calls every array handed out still holds its uncached parse at the end. |
| ClassMerge.KeepIdempotent | frontend/libs/ui/utils/src/lib/hlm.ts:15-17 | Merging a merged list drops nothing and takes the same groups. |
| ClassMerge.KeptExactlyWhen | frontend/libs/ui/utils/src/lib/hlm.ts:15-17 | A class is dropped, as if never there, exactly when a class kept to its right blocks its group; otherwise it stays in its place. |
| ClassMerge.MergeForgetsOverridden | frontend/libs/ui/utils/src/lib/hlm.ts:257-261 | Base classes already overridden may be forgotten without changing the merge with any source classes. |
| ClassEngine.RunWellFormed | frontend/libs/ui/utils/src/lib/hlm.ts:103-153 | In every run sources are live registrations at distinct positions and all classes are words. |
| ClassEngine.InOrderIsSourceSet | frontend/libs/ui/utils/src/lib/hlm.ts:249-255 | The list sorted by registration order holds exactly the sources' classes. |
| ClassEngine.InOrderSorted | frontend/libs/ui/utils/src/lib/hlm.ts:249-255 | In it the classes of a source registered earlier stand before those of one registered later. |
| ClassMerge.AddAllExtends | frontend/libs/ui/utils/src/lib/hlm.ts:110-114 | A set of classes keeps them in the order they were first added. |
| ClassReference.SourcesFromSteps | frontend/libs/ui/utils/src/lib/hlm.ts:103-153 | In every run, against the steps alone: the engine holds a source exactly if it was registered, has had an effect since and was not destroyed, with the words of its last input at its own position; and the element is managed until its last source goes. |
| ClassSettling.FeedbackSettles | frontend/libs/ui/utils/src/lib/hlm.ts:177-211 | From any well-formed state, however many records are pending, the observer writes at most once more and is quiet after two callbacks. |
| ClassSettling.ExternalChangeSettles | frontend/libs/ui/utils/src/lib/hlm.ts:177-211 | After any external class change the element is at rest after one callback, showing the merge of its sources and a base disjoint from them. |
| ClassSettling.ExternalClassesKept | frontend/libs/ui/utils/src/lib/hlm.ts:187-207 | And the base it shows is what the external text had beyond the sources' own classes. |
| ClassSettling.LastDestroyLeavesText | frontend/libs/ui/utils/src/lib/hlm.ts:143-152 | The last source to go ends the management and leaves the element's text, for good. |
| ClassSettling.SourceChangeSettles | frontend/libs/ui/utils/src/lib/hlm.ts:106-117 | After a source changes: one write by the effect, at most one by the observer. |
| ClassSettling.TwoWritesHappen | frontend/libs/ui/utils/src/lib/hlm.ts:222-269 | The bound of two is reached on an element that a run from its creation leads to. |
| ClassSettling.ClassesOnlyFromSources | frontend/libs/ui/utils/src/lib/hlm.ts:249-266 | With external classes fixed and disjoint from the sources', the text shown after any run is the merge of the live sources' last inputs, in registration order, with the external ones: all read from the steps alone. |
| ClassSettling.OrderOfEventsIrrelevant | frontend/libs/ui/utils/src/lib/hlm.ts:103-129 | Two such runs that end with the same source classes in the same order show the same text. |
| ClassSettling.CallbackTimingIrrelevant | frontend/libs/ui/utils/src/lib/hlm.ts:177-211 | Observer callbacks may be moved, added or dropped without changing sources or the final text. |
| ElementClassManagers.ElementClassManager.UpdateElement | frontend/libs/ui/utils/src/lib/hlm.ts:222-269 | The imperative update, with its first-time capture, sort and conditional write, is the engine's. |
| ElementClassManagers.ElementClassManager.SortedSourceClasses | frontend/libs/ui/utils/src/lib/hlm.ts:250-255 | The sorted, concatenated source classes. |
| ElementClassManagers.ElementClassManager.CaptureBase | frontend/libs/ui/utils/src/lib/hlm.ts:228-247 | Once, with the first source, the element's classes that no source produces join the base. |
| ElementClassManagers.ElementClassManager.ApplyClasses | frontend/libs/ui/utils/src/lib/hlm.ts:249-266 | The element shows the merge afterwards, written only if it did not before. |
| ElementClassManagers.ElementClassManager.RegisterSource | frontend/libs/ui/utils/src/lib/hlm.ts:103-104 | The position is assigned once, after all earlier ones. |
| ElementClassManagers.ElementClassManager.HandleMutation | frontend/libs/ui/utils/src/lib/hlm.ts:183-208 | Clearing and refilling the base set, then updating, is the engine's handling of one record. |
| ElementClassManagers.ElementClassManager.ObserverCallback | frontend/libs/ui/utils/src/lib/hlm.ts:177-211 | One callback handles every pending record, its own writes' records being left for the next. |
| ElementClassManagers.ElementClassManager.UpdateClasses | frontend/libs/ui/utils/src/lib/hlm.ts:106-117 | One effect replaces its source's classes at its own position and updates. |
| ElementClassManagers.ElementClassManager.DestroySource | frontend/libs/ui/utils/src/lib/hlm.ts:132-153 | Removes the source; the last one ends the management, otherwise the element is updated. |
| Headers.RestoreThenResolve | frontend/src/app/features/send/send.component.ts:383-416 | Resolving a restored record gives the same map if and only if every entry is sendable. |
| Headers.ResolveRestoreIsKept | frontend/src/app/features/send/send.component.ts:132-158 | In general it keeps exactly the sendable entries. |
| Headers.ResolveRestore | frontend/src/app/features/send/send.component.ts:132-158 | In order: sendable rows first as they were, then the five named fields. |
| Headers.ResolveIsStable | frontend/src/app/features/send/send.component.ts:132-158 | For any panel state, resolving, restoring and resolving again gives the same header map. |
| Headers.OrderStableFromSecondPass | frontend/src/app/features/send/send.component.ts:383-416 | From the second pass on the very same record, enumeration order included. |
| Headers.ResolvedIsSendable | frontend/src/app/features/send/send.component.ts:132-158 | Whatever the panel state, the resolved record is in enumeration order and has only sendable entries. |
| SendInputs.ResolvedExactlyWhen | frontend/src/app/features/send/send.component.ts:132-158 | For any panel state and key: nothing is sent while the section is off; while it is on, the last entry for the key that is not blank, rows first and then the named fields. |
| SendInputs.TypedRowIsSent | frontend/src/app/features/send/send.component.ts:252-266 | A header row typed in is sent, and taking it back undoes it. |
| SendInputs.NamedKeys | frontend/src/app/features/send/send.component.ts:145-155 | The five named fields that are not blank are sent under the five NServiceBus keys. |
| SendInputs.TypedFieldIsSent | frontend/src/app/features/send/send.component.ts:145-155 | A named field typed in is sent under its own key, whatever the rows say. |
| SendHistory.RecentRefinesLog | frontend/src/app/features/send/send-history.service.ts:57-62 | After at least one recorded send the recent sends are the first 20 of the log, newest first, then the loaded list. |
| SendHistory.TemplatesRefineMap | frontend/src/app/features/send/send-history.service.ts:64-74 | Templates are a map from names updated by save and delete, and distinct names stay distinct. |
| SendHistory.ReloadRestores | frontend/src/app/features/send/send-history.service.ts:29-52 | At any moment a reload gives exactly what is in memory. |
| SendHistory.SendHistoryService.RecordSend | frontend/src/app/features/send/send-history.service.ts:57-62 | Memory and storage after a recorded send. |
| SendHistory.SendHistoryService.SaveTemplate | frontend/src/app/features/send/send-history.service.ts:64-68 | Replaces the template of that name, in memory and storage, and moves it last. |
| SendHistory.SendHistoryService.DeleteTemplate | frontend/src/app/features/send/send-history.service.ts:70-74 | Removes the templates of that name from memory and storage. |
| SendPanel.ReplyModeImpliesTarget | frontend/src/app/features/send/send.component.ts:206-237 | In every run reply mode means an exactly empty exchange and the routing key of the target last applied. |
| SendPanel.EveryPostIsWellFormed | frontend/src/app/features/send/send.component.ts:274-298 | In every run each posted body has a payload that is not blank, an exchange not blank or empty in reply mode, sendable headers, and a correlation id only from reply mode and never blank. |
| SendPanel.PostedIsAccepted | src/BusTester.Domain/BusMessage.cs:42-57 | The constructor accepts a posted body if and only if neither exchange nor payload is white space with a next-line character. |
| SendPanel.NextLinePayloadIsPostedAndRefused | frontend/src/app/features/send/send.component.ts:160-174 | A run from the opening posts such a body. |
| SendDrafts.EachDraftActedOnOnce | frontend/src/app/features/send/send.component.ts:188-199 | In every run without clear, drafts are acted on in strictly increasing number: once each, a declined one never again. |
| SendDrafts.NoSilentOverwrite | frontend/src/app/features/send/send.component.ts:188-250 | In every run a draft that replaces the form without asking replaces exchange, routing key, payload and headers that are just those kept (opened with, filled in, or known to be sent), exactly if the last capture was not at a late answer. |
| SendDrafts.DirtyExactlyWhen | frontend/src/app/features/send/send.component.ts:177-186 | The form is clean exactly if exchange, routing key, payload and the headers as they would be sent equal the baseline's. |
| SendDrafts.EditsMakeDirty | frontend/src/app/features/send/send.component.ts:177-215 | A clean form becomes dirty exactly by an input that changes one of those. |
| SendDrafts.RequestsAreSeen | frontend/src/app/core/reply-draft.service.ts:21-23 | In every run without clear, each request is acted on when the effect runs, also for a target asked for before. |
| SendDrafts.UnaskedChangesOnlyKept | frontend/src/app/features/send/send.component.ts:222-237 | In every run a flush without consent that changes any field found the form kept, or one captured at a late answer. |
| SendDrafts.EditsAreSafe | frontend/src/app/features/send/send.component.ts:300-308 | So as long as no answer finds edits in the form, unsaved edits are never replaced without asking. |
| SendDrafts.BaselineIsKept | frontend/src/app/features/send/send.component.ts:243-250 | In every run the baseline of the dirty check is the form kept exactly if the last capture was not at a late answer. |
| SendDrafts.CapturesExactlyWhen | frontend/src/app/features/send/send.component.ts:222-250 | The baseline moves only when the form is filled in or a plain send succeeds, and then to the form of that moment. |
| SendDrafts.CorrelationEditsAreUnguarded | frontend/src/app/features/send/send.component.ts:177-186 | Editing the reply's correlation id never makes a draft ask, and an applied draft replaces it. |
| SendDrafts.FlushDoes | frontend/src/app/features/send/send.component.ts:222-237 | One flush either leaves every field of the form or makes it the draft's, clean; either way the draft is not acted on again. |
| SendDrafts.ReplyCarriesTarget | frontend/src/app/features/send/send.component.ts:222-317 | What an applied draft and a typed payload post: nothing for a blank payload or a white-space routing key; otherwise one body to the default exchange under the target's routing key, with the target's correlation id, trimmed, exactly when it has one that is not blank and no reply is expected; with one expected it goes to the other endpoint without. |
| SendInputs.TypedIsPosted | frontend/src/app/features/send/send.component.ts:206-312 | Typing exchange, routing key and payload and sending posts just that to the endpoint chosen, and nothing while a field is in error. |
| SendInputs.TypedCorrelationIsPosted | frontend/src/app/features/send/send.component.ts:289-298 | A correlation id typed into a reply is posted, trimmed, unless it is blank or a reply is expected. |
| SendDrafts.ClearHidesNextDraft | frontend/src/app/core/reply-draft.service.ts:21-27 | After a clear the next draft is acted on exactly if the last one handled was not number one; if it was, the form stays. |
| SendDrafts.LateAnswerHidesEdits | frontend/src/app/features/send/send.component.ts:300-308 | A run in which text typed while a send is in flight becomes the baseline and the next draft replaces it unasked. |
| SendRecords.HistoryFollowsPosts | frontend/src/app/features/send/send.component.ts:300-308 | In every run the history is what its own log gives, and each recorded send has the fields of a posted body, as they were at the click. |
| SendRecords.PostsAreConserved | frontend/src/app/features/send/send.component.ts:300-308 | In every run each form is recorded, or in flight, at most as often as it was posted: no post is recorded twice. |
| SendRecords.RecentSendsFollowPosts | frontend/src/app/features/send/send-history.service.ts:57-62 | So after any run with a recorded send the recent sends are the first 20 of the panel's log, then of the loaded list. |
| SendRecords.RecallRestoresHeaders | frontend/src/app/features/send/send.component.ts:345-352 | Recalling what was sent restores its fields and, as a map, the headers that were sent, and leaves the panel clean. |
| SendRecords.TemplateRestoresForm | frontend/src/app/features/send/send.component.ts:354-372 | Using a template saved from a form restores that form and, as a map, its headers. |
| SendInputs.SavedUnderTypedName | frontend/src/app/features/send/send.component.ts:364-372 | Saving puts the form under the name typed, in place of an older template of that name, and leaves the others. |
| SendInputs.DeletedByName | frontend/src/app/features/send/send.component.ts:374-376 | Deleting removes just the templates of that name. |
| SendRecords.RecalledReplyIsNotSendable | frontend/src/app/features/send/send.component.ts:345-352 | An entry the run recorded can be sent as recalled exactly if its exchange is not empty. |
| SendRecords.RepliesAreRecorded | frontend/src/app/features/send/send.component.ts:274-308 | A run that records a reply, whose exchange is empty. |
| SendComponents.SendComponent.ResolvedHeaders | frontend/src/app/features/send/send.component.ts:132-158 | The two loops merge the rows and then the named fields, which win. |
| SendComponents.SendComponent.RestoreHeaders | frontend/src/app/features/send/send.component.ts:383-416 | The loop splits any record into the named fields and the leftover rows, and touches no other field. |
| SendComponents.SendComponent.ApplyReplyDraft | frontend/src/app/features/send/send.component.ts:222-237 | Exactly the specified step: skipped, declined or applied. |
| SendComponents.SendComponent.OnSend | frontend/src/app/features/send/send.component.ts:274-317 | Nothing is posted while a field is in error; otherwise exactly one body. |
| SendComponents.SendComponent.OnRespond | frontend/src/app/core/reply-draft.service.ts:21-23 | A request is the panel's step: a draft with a higher number than the one it replaces, and an effect that is due. |
| SendComponents.SendComponent.OnClearDraft | frontend/src/app/core/reply-draft.service.ts:25-27 | Clearing takes the draft away and restarts the numbers. |
| SendComponents.SendComponent.CurrentSnapshot | frontend/src/app/features/send/send.component.ts:179-186 | The editable form, headers as they would be sent. |
| SendComponents.SendComponent.CaptureSnapshot | frontend/src/app/features/send/send.component.ts:243-250 | The baseline becomes the form; nothing else changes. |
| SendComponents.SendComponent.OnExchangeInput | frontend/src/app/features/send/send.component.ts:206-209 | Typing an exchange ends reply mode. |
| SendComponents.SendComponent.OnRoutingKeyInput | frontend/src/app/features/send/send.component.ts:212-215 | Typing a routing key ends reply mode. |
| SendComponents.SendComponent.RunEffect | frontend/src/app/features/send/send.component.ts:188-199 | A flush looks at the draft at most once per change of it. |
| SendComponents.SendComponent.OnSaveTemplate | frontend/src/app/features/send/send.component.ts:364-372 | The form as it would be sent is saved under the typed name. |
| SendComponents.SendComponent.OnDeleteTemplate | frontend/src/app/features/send/send.component.ts:374-376 | Only the history changes. |
| SendComponents.SendComponent.OnAnswer | frontend/src/app/features/send/send.component.ts:300-308 | A plain send's success is recorded with its click-time fields and captures the form as it is now. |
| SendComponents.SendComponent.OnUseRecent | frontend/src/app/features/send/send.component.ts:345-352 | Leaves reply mode, fills the form, restores the headers, captures. |
| SendComponents.SendComponent.OnUseTemplate | frontend/src/app/features/send/send.component.ts:354-362 | The same, with every field marked as touched. |

## Left out

- Foreign libraries: the RabbitMQ client, SignalR's transport, HTTP and Angular are abstract channels that open, close, deliver, lose or fail, and signals read at explicit steps.
- The connection part of teardown runs outside the lock: under interleaving a second teardown may close or forget a connection another one made, and the model claims nothing of which connection is open, only which one a channel was made on.
- Handles are drawn in the step that puts them in the map, and are fresh; until then only the drawing operation knows them. An unsubscribe may name any handle, also one whose subscribe has not returned yet.
- ProtocolConnections.ChannelsAreCurrent: a sufficient condition only; the exact one is `ProtocolConnections.MappedIsCurrentExactlyWhen`.
- The channel a publish makes for itself is made and disposed of in one step.
- Each consumer handles one delivery at a time, as the client library does by default; a broadcast that throws is not a step.
- Cancellation tokens, GUID generation, time stamps, `Dispose` and errors after disposal; UTF-8 decoding of bodies.
- More than one browser: the end-to-end result is about one connection's groups and store, for every behaviour of the server.
- HubService.BusHubService.Start: the connection states after the first start (reconnecting, closed) are labels and are not followed; how the start settles is `StartSettles`, which only sets two fields.
- Error messages, toasts, the connect form, the controllers, the capabilities endpoint, configuration guards and the JSON pretty printer: each is one branch or a library call.
- Class words are separated by U+0020 only; white space of other kinds inside one class string, which the merge library would split and the engine would not, is not followed, and the merge library's tables are parameters.
- The suppression and restoring of transitions in `hlm.ts`, and elements outside a browser.
- An element whose last source is gone is no longer managed; a manager made for it afterwards is a new engine.
- ElementClassManagers.ElementClassManager.UpdateElement: parses without the cache; `ClassList` proves the cache transparent on its own, for callers that do not write to a shared array, and these do not.
- `ClassEngine` has no `isUpdating`: an update has no await and no callback inside, so between steps the flag is down; `ElementClassManager` keeps the flag and proves that every method leaves it down.
- SendHistory.ReloadRestores: JSON is an injective encoding, and a write to local storage does not fail.
- SendHistory.SendHistoryService.RecordSend: the time stamp is part of the entry it is given.
- SendComponents.SendComponent.RestoreHeaders: the seven header signals are one record-valued field, updated part by part.
- Strings are sequences of characters; `__proto__` is the only property name an assignment treats specially.
- MessagesComponents.MessagesComponent.FinishUnsubscribe: leaving the SignalR group is a step of `EndToEnd`, not of this method; its failure only sets an error message.
