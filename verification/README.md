# Replication of landscape events: a verified model

The event manager of `modelsrv` keeps three views of one unbounded log of model events: a bounded
ring of recent events, a latest-state store with one event per live resource, and one bounded
delivery queue per subscriber that falls back to dropping events and re-sending the current state.
`QueryEvents` combines the first two, so that a reader who starts beyond the retention window can
still rebuild the state. This project models that machinery, the filter chain in front of it, the
collector-config writer that follows ApiInstance events, and the normalizer for replicated wire
maps, and proves what they promise for every log, every ring capacity, every query and every
interleaving.

A receiver is modelled as a map of resources: Create and Update upsert, Delete removes
(`Fold.dfy`). That two sequences of events mean the same is stated through replaying them, and
proved through the last event that names each key.

## Layout

| file | what it models |
|---|---|
| `Wrappers`, `Fold`, `Events` | optional values; replaying changes; resource types, operations, wire names |
| `HistoryRing`, `LatestState`, `History`, `Manager` | the ring, the store and the manager as classes; the answer to a query as a function of the log |
| `Queries`, `QueryFilters`, `Paging`, `Tailing` | what a reader of `QueryEvents` can rely on: rebuilding, catching up, filters and limit, paging, following live |
| `Subscriptions`, `SystemView` | `Receive`, `AddSubscriber`, `RemoveSubscriber` and the delivery goroutines as a step relation; the manager's methods as its steps |
| `SubscriptionSafety`, `HandOff` | what every interleaving keeps: registry, queues, stop channels, hand-off |
| `DeliveryOrder`, `RecordOrder`, `Arrivals` | the order in which events pass through a queue and arrive at a server, and exactly when it is the order of the log |
| `Ledger`, `SubscriberInvariant`, `DeliveryRuns` | drop, resync and retry: what becomes of every Delete, what every step keeps, what runs guarantee |
| `UndisturbedRuns`, `DeliveryLimits` | runs without overflow or exhausted delivery, in any enqueue order; and runs that show where the guarantees end |
| `DeliveryLoop` | the notifier's methods as written, following that step relation while others interleave |
| `ProbeTargets`, `Registry`, `ConfigRuns`, `ConfigWriter` | probe targets, the registry as a function of the events, the protocol that keeps the file in step, and the writer and its filter as written |
| `FilterChain` | the chain of event filters, the rules it keeps in the model, and the sink that forwards what it produces |
| `WireNormalize`, `WireProperties`, `WireKinds` | the wire-map normalizer, in place, what its steps keep, and what becomes of each key of each kind of resource |

Code that changes state in place is a class whose methods are proved to follow a function or a step
relation; the properties are lemmas about those. A ghost `log` or `history` field records what has
happened and is what the contracts talk about.

## What concurrency means here

`Subscriptions.dfy` and `ConfigRuns.dfy` are state machines. A step is one critical section, one
channel operation, one access to the atomic flag, one `Notify` attempt, or one file operation, and
any enabled step may come next. `Notify` may succeed, fail without effect, or fail after the
subscriber has applied the event. `DeliveryLoop.dfy` and `ConfigWriter.dfy` are the loops as they are
written: at every point where other goroutines can run, an arbitrary script of their steps does.

A subscriber's map of resources belongs to the server at its URL. It outlives registrations: a new
registration finds whatever an earlier one left there, and an earlier notifier, which is told to stop
but not waited for, may still be writing to it.

Four assumptions are visible in the statements:

- *Enqueueing in record order, resource by resource.* `recordingSink.Receive` records under the lock
  and enqueues after releasing it, so overlapping calls can reach a queue in the other order. The
  statements about agreement are about runs in which no event overtakes an older one of the same
  resource (`KeyOrderedRun`), those about the order of delivery about runs in which none overtakes any
  (`OrderedRun`); runs in which `Receive` calls do not overlap are both. A run meets the second if and
  only if every subscriber has been and will be addressed in strictly increasing record order
  (`OrderedExactly`). Without any such assumption `AgreesExactly` says, for a subscriber with no
  overflow and no exhausted delivery, precisely when it ends up wrong;
  `OverlappingReceivesCanDisagree` is such a run.
- *A server to oneself.* Agreement is stated for a registered subscriber to whose server nobody else
  has written since it was registered (`OwnWrites`). That is so whenever a URL is registered only once
  every earlier notifier for it has stopped (`CleanRunsWriteAlone`). `AddSubscriber` does not wait for
  that, and `ReregisteredSubscriberDisagrees` is a run, without overlap or failure, in which a removed
  notifier leaves its successor's server with an older payload. Over all registrations of a URL,
  events arrive in record order if and only if no notifier delivers one after a later registration has
  (`ArrivalOrderExactly`). The comment at `internal/events/notify.go:26-28` promises the model's order
  outright; the code gives it under these two assumptions. The hand-off, registry and queue-bound
  statements need neither.
- *Declared resource types.* `WireKind` gives every undeclared value the same name
  (`WireKindCollides`), so the statements about wire keys require declared types.
- *A snapshot only creates.* It cannot remove a resource of which the Delete was lost, or which the
  server held before it was registered. Convergence is therefore stated as agreement on every live
  resource, and as a limit on what else may be left: a resource whose last change in the log is a
  Delete, recorded since registration, and that very Delete was lost; or one that was held at
  registration, was not live then, and has not changed since (`ExactLeftovers`). `ResyncIsExact` says
  when a resync gives equality and `UndisturbedRunIsExact` when an undisturbed run does;
  `ResyncKeepsDeletedResource` and `ServerKeepsWhatItHeld` are runs that do not. The comments at
  `internal/events/notify.go:18-21` and `125-127`, which call a resync convergence and giving up no
  data loss, say more than the code does.

In two places a needed step waits for the next event or change, so only safety is claimed.
`StallExactly` says when a delivery goroutine can do nothing by itself, and `FailedReplayStalls` is a
run that gets there; `FailedFlushStalls` says when the config writer can do nothing about a dirty
registry, and `StallIsReachable` is such a run.

## Model

| member | source | states |
|---|---|---|
| HistoryRings.HistoryRing.constructor | internal/events/history_ring.go:30-38 | a requested capacity of zero or less means the default of 1000; the ring starts with an empty log |
| HistoryRings.LayoutStep | internal/events/history_ring.go:44-54 | writing one slot and advancing keeps "the slots from next round to next are the last min(n, capacity) events, oldest first", across wrap-around, and the overwritten event is the newest evicted one |
| HistoryRings.HistoryRing.Add | internal/events/history_ring.go:44-54 | the log grows by exactly this event and the layout and boundary invariant is kept, in the same array |
| HistoryRings.HistoryRing.Snapshot | internal/events/history_ring.go:57-66 | the result is the last min(n, capacity) events of everything ever added, in order |
| HistoryRings.HistoryRing.CompactionBoundary | internal/events/history_ring.go:70-72 | id and time of the newest evicted event, zero when nothing was evicted |
| LatestState.LatestStateStore.constructor | internal/events/latest_state.go:22-24 | the store starts as the fold of the empty log |
| LatestState.StoreStep | internal/events/latest_state.go:26-46 | how one more event changes the fold of a log and the listing order of its keys: Create and Update upsert and list new keys last, Delete removes, other operations count as upserts |
| LatestState.LatestStateStore.Receive | internal/events/latest_state.go:26-46 | keys, payloads and order list stay those of the fold of the whole log, for every operation value |
| LatestState.LatestStateStore.RemoveFromOrder | internal/events/latest_state.go:48-55 | exactly the first occurrence of the key goes; the rest keeps its order |
| LatestState.LatestStateStore.GetEvents | internal/events/latest_state.go:61-69 | one Create per live resource with its latest payload; of any two, the one whose current incarnation began earlier in the log comes first |
| LatestState.OrderSorted | internal/events/latest_state.go:37-55 | after any log the order list is duplicate-free, holds exactly the live keys, and is sorted by the position at which each resource's current incarnation began |
| LatestState.BirthIsBornAt | internal/events/latest_state.go:29-39 | that position is the first upsert of the key with no Delete after it and a Delete between it and every earlier upsert |
| LatestState.BornAtUnique | internal/events/latest_state.go:57-60 | a live resource has only one such position |
| LatestState.SnapshotEffect | internal/events/latest_state.go:57-69 | replaying a snapshot sets every live key to its latest value and touches no other key |
| LatestState.SnapshotOldestFirst | internal/events/latest_state.go:57-69 | for every log the snapshot has one entry per live resource, with its latest payload, in the order in which their current incarnations began |
| Events.WireKindInjective | pkg/events/events.go:175-188 | two declared resource types have the same wire name exactly when they are equal |
| Events.WireKindCollides | pkg/events/events.go:175-188 | over all values of the type, two share a wire name exactly when they are equal or both are the unknown type or undeclared |
| Events.ParseWireKind | pkg/events/events.go:256-266 | for every iteration order of the name table: parsing inverts both names of every declared type but Annotations, never yields Annotations, and yields a type only for one of its own names |
| Events.OperationNames | pkg/events/events.go:237-280 | the wire name of every operation reads back as that operation, and no other string reads as a Create, Update or Delete |
| History.WireStateIsLatestState | pkg/events/history.go:21-30 | the state a reader rebuilds under wire keys is the latest-state map under renaming: same resources, same payloads, nothing more |
| Manager.EventManager.constructor | internal/events/manager.go:52-68 | empty log, number zero, no subscribers, and a ring of the configured or default capacity |
| Manager.EventManager.IncrementSequenceId | internal/events/manager.go:85-90 | a gap in the numbering and nothing else; the invariant tying ring, store and log together is kept |
| Manager.EventManager.Record | internal/events/recording_sink.go:30-38 | one atomic step appends the event under the next id to the log that both the ring and the store are views of, and hands back the subscribers of that moment |
| Manager.EventManager.Register | internal/events/manager.go:102-118 | a known URL changes nothing and is no error, a URL for which no client can be made is an error; otherwise it is listed last and gets the snapshot of the log as it is at that moment, oldest creation first |
| Manager.EventManager.Unregister | internal/events/manager.go:143-155 | the entry with this URL, and no other, leaves the list; the result tells whether there was one |
| Manager.EventManager.QueryEvents | internal/events/manager.go:173-248 | for every reachable manager state and query the result is the answer that the log, the capacity and the query determine, and every entry of it lies beyond SinceSeq and has the operation, type and id names that were asked for |
| Manager.Synthesize | internal/events/manager.go:178-199 | the prefix is one Create, at the boundary id and time, for each snapshot entry the tail does not name |
| Manager.Collect | internal/events/manager.go:202-247 | the filtered prefix in full, then filtered tail entries until the page is full, and at least one of them if there is any |
| Queries.TailIsSuffix | internal/events/history_ring.go:44-72 | evicted events followed by the tail are the whole log; tail ids ascend strictly within (boundary, current number] and evicted ids do not exceed the boundary, gaps or not |
| Queries.LastEventDecides | internal/events/latest_state.go:26-46 | the last event of a resource in the log decides whether it is in the latest-state store and with which payload |
| Queries.LastTailEventDecides | internal/events/manager.go:179-198 | the last tail event that names a resource decides its presence and payload in the latest-state store; a resource no tail event names is there as the evicted events left it |
| Queries.PrefixMembers | internal/events/manager.go:186-198 | the synthetic prefix holds Creates with the latest payload for exactly the live resources that have no event in the tail |
| Queries.PrefixOldestFirst | internal/events/manager.go:190-198 | of any two entries of the synthetic prefix, the first is about the resource that was created earlier |
| QueryFilters.AnswerAsAsked | internal/events/manager.go:207-225 | every entry of every answer has an id above SinceSeq, the operation, type and id names that were asked for, and a payload only if asked |
| QueryFilters.AnswerShows | pkg/events/history.go:21-30 | every entry shows, field by field, one retained record, or, if the query reaches past the boundary, a live resource as created at the boundary with its latest payload |
| QueryFilters.AnswerSize | internal/events/manager.go:202-247 | at most the limit, 100 standing for a limit of zero or less, unless the prefix alone fills it; fewer entries only if there are no more |
| QueryFilters.Unfiltered | internal/events/manager.go:207-225 | a query without filters matches the whole prefix and every tail entry beyond SinceSeq |
| QueryFilters.FilterNarrows | internal/events/manager.go:211-219 | adding an operation, type or id filter to any query keeps of its matches, in order, exactly those whose field has that name; so too of its answer when the limit is sufficient |
| QueryFilters.PayloadOnly | internal/events/manager.go:220-224 | leaving payloads out changes nothing but the payloads |
| Queries.Reconstruction | pkg/events/history.go:34-38 | for every log over declared types and every capacity, replaying all that an unfiltered query from 0 matches onto nothing gives exactly the latest state, and one answer does if the limit is sufficient |
| Queries.StaleReaderCatchesUp | internal/events/manager.go:179-199 | a replica with any content that polls from below the boundary ends with the latest state plus exactly those of its own entries that are gone and that the tail never mentions |
| Paging.PageShape | pkg/events/history.go:40-45 | the prefix is never cut; a page exceeds the limit only if the prefix fills it, and then lets exactly one tail match through; a short page is complete |
| Paging.PageAdvances | internal/events/manager.go:227-246 | a non-empty page moves SinceSeq strictly forward, to or past the boundary, and what is pending strictly shrinks, so paging terminates |
| Paging.RestOfAnswer | pkg/events/history.go:40-45 | what the next query still matches is exactly what this page left out |
| Paging.PagesDeliverEverythingOnce | pkg/events/history.go:40-45 | for every filter and limit, the pages concatenate to the filtered prefix followed by the filtered tail, each entry once |
| Paging.PagedReaderCatchesUp | pkg/events/history.go:34-45 | reading page by page with any limit, a new reader rebuilds exactly the latest state and a stale one the latest state plus its own unmentioned leftovers |
| Tailing.RecordKeepsInv | internal/events/recording_sink.go:30-35 | recording, with or without eviction, keeps "unread events replayed on the reader's replica give the latest state and exactly what is left over" |
| Tailing.PollInTime | internal/events/manager.go:202-247 | so does a poll with any limit from at or past the boundary, which leaves nothing over |
| Tailing.PollLate | internal/events/manager.go:178-199 | so does a poll from below the boundary, whose leftovers are the resources the reader held of which the last change is a Delete evicted unread |
| Tailing.TailingInvariant | internal/events/manager.go:173-247 | the same for every interleaving of recording, eviction, bare increments and polls with any limit, however late |
| Tailing.LiveTailing | internal/events/manager.go:173-247 | in every such run, while SinceSeq is not below the boundary the retained events after it complete the replica to the latest state and exactly the leftovers; it is the latest state if and only if there are none |
| Tailing.TailingInTime | internal/events/manager.go:173-247 | a reader whose every poll, after the first that brought something, comes from at or past the boundary holds exactly the latest state whenever it has read everything |
| Subscriptions.SerialRunsAreOrdered | internal/events/recording_sink.go:30-42 | runs in which Receive calls do not overlap enqueue in record order |
| Subscriptions.OrderedRunsAreKeyOrdered | internal/events/recording_sink.go:30-42 | and so, resource by resource |
| SubscriptionSafety.RegistrySafety | internal/events/manager.go:102-155 | in every interleaving: registered URLs are distinct, no queue exceeds 256, a stop channel is closed exactly once by the time its remover is done and not before its notifier has left the list, and a goroutine that has ended on stop had it closed |
| SubscriptionSafety.ClosesOnce | internal/events/manager.go:143-151 | the channel a remover is about to close is still open and its notifier is off the list |
| HandOff.HandOffRuns | internal/events/manager.go:102-131 | every interleaving of Receive, enqueue, AddSubscriber and RemoveSubscriber keeps the exactly-once bookkeeping of who is owed which event |
| HandOff.SubscriptionHandOff | internal/events/recording_sink.go:30-42 | each recorded event is either reflected in a new subscriber's snapshot or addressed to its queue, never both, never neither, and no position is enqueued twice |
| RecordOrder.InOrderMeansOldest | internal/events/recording_sink.go:38-42 | an enqueue is in order exactly when its event is the oldest one the target still awaits |
| RecordOrder.OrderedExactly | internal/events/recording_sink.go:30-42 | all enqueues of a run were in order if and only if, at its end, the positions each subscriber has been and is about to be addressed with strictly increase; an event that overtook another is never put right |
| SystemView.RecordStep | internal/events/recording_sink.go:30-38 | the manager's record step is the system's Receive step: same log, same subscribers to enqueue to |
| SystemView.RegisterStep | internal/events/manager.go:102-118 | the locked part of AddSubscriber is the system's step, with the snapshot the new subscriber replays, or changes nothing |
| SystemView.UnregisterStep | internal/events/manager.go:143-155 | the locked part of RemoveSubscriber succeeds exactly when the system's step is enabled, and is that step |
| SystemView.Drive | internal/events/manager.go:52-155 | a manager driven through any run of the system ends with that run's log and list of subscribers |
| SubscriberInvariant.ReceiveKeeps | internal/events/recording_sink.go:30-38 | recording keeps the subscriber invariant: unless a miss is flagged, everything on its way replayed on the server's map agrees with the latest state, and all else it would hold is explained by a lost Delete or was held over from before registration |
| SubscriberInvariant.OfferKeeps | internal/events/notify.go:60-70 | enqueueing any pending event that overtakes none of its resource keeps it, whether the event fits or is dropped |
| SubscriberInvariant.DeliverKeeps | internal/events/notify.go:72-155 | every step of run, deliverSnapshot, drainQueue and deliver keeps it, with every outcome of Notify |
| SubscriberInvariant.SnapshotThenEnd | internal/events/notify.go:96-103 | on any replica, a snapshot followed by changes that end, for each resource they name, with its last one agrees with the latest state |
| SubscriberInvariant.DropOne | internal/events/notify.go:57-70 | leaving one event out of a replay adds a resource to the result only if the event was its Delete |
| SubscriberInvariant.ResyncIsExact | internal/events/latest_state.go:57-69 | a resync makes a replica equal to the latest state if and only if the replica held no deleted resource |
| DeliveryRuns.RunsKeepInv | internal/events/notify.go:60-155 | in every run that enqueues each resource's events in record order, the invariant holds for every registered subscriber to whose server nobody else has written since |
| DeliveryRuns.NoLostResync | internal/events/notify.go:60-113 | for such a subscriber, whenever the flag is clear and no delivery, drain or snapshot is in progress, replaying the queue and what is about to be enqueued on its server's map leaves every live resource at its latest payload, after any mix of overflow, failures, retries and concurrent recording |
| DeliveryRuns.StallExactly | internal/events/notify.go:72-93 | its waiting goroutine can do nothing until an event is queued exactly when its queue is empty and no timer runs; if its server then lacks a live resource that is not on its way, the flag is set and the failed step was AddSubscriber's replay |
| DeliveryRuns.IdleMeansUpToDate | internal/events/notify.go:74-93 | a goroutine that waits with an empty queue and no timer has a server in agreement, flag or no flag, unless AddSubscriber's replay was given up |
| Ledgers.LeftBehind | internal/events/notify.go:60-155 | if an event that is dropped is a Delete and its resource is there after all that is still to come, then the last Delete of that resource is a lost one |
| DeliveryRuns.ExactLeftovers | internal/events/notify.go:60-155 | any other resource the server will hold is one whose last change in the log is a Delete, recorded since registration, that was dropped on overflow, discarded by drainQueue or given up by deliver, or one it held at registration that was not live then and has not changed since; the latter it will hold in any case |
| DeliveryRuns.UndisturbedRunIsExact | internal/events/notify.go:60-155 | with no overflow and no exhausted delivery the server will hold exactly the latest state, and does once nothing is on its way, if and only if nothing is held over from before registration |
| UndisturbedRuns.ReplaysInEnqueueOrder | internal/events/manager.go:102-131 | in every run, ordered or not, such a subscriber's server will hold what it held, then the snapshot, then the events in the order of the enqueue calls |
| UndisturbedRuns.AgreesExactly | internal/events/recording_sink.go:38-42 | so overlapping Receive calls do no harm if and only if, for each live resource, the last of its events to be enqueued carries the latest payload; and it holds exactly the latest state if and only if the same holds of all resources and nothing is held over |
| Arrivals.DeliveryInRecordOrder | internal/events/notify.go:26-32 | queue deliveries of one registration are in strictly increasing record order over the whole run, before and after its removal |
| Arrivals.ArrivalOrderExactly | internal/events/manager.go:143-151 | over all registrations of a URL, queued events arrive at the server in record order if and only if no notifier delivers one after a later registration of the URL has |
| Arrivals.CleanRunsArriveInOrder | internal/events/manager.go:102-131 | they do where a URL is registered only once its earlier notifiers have stopped |
| Arrivals.CleanRunsWriteAlone | internal/events/manager.go:102-131 | there every registered subscriber has had its server to itself since it was registered |
| DeliveryLimits.OverlappingReceivesCanDisagree | internal/events/recording_sink.go:38-42 | two overlapping Receive calls can leave a subscriber with the older payload although nothing overflowed or failed |
| DeliveryLimits.ResyncKeepsDeletedResource | internal/events/notify.go:125-127 | after a Delete is given up and a complete resync, the subscriber can still hold the deleted resource with the flag clear |
| DeliveryLimits.FailedReplayStalls | internal/events/manager.go:123-129 | after a failed first replay the flag is set, but no step of the goroutine is possible until an event is queued, while a live resource is missing |
| DeliveryLimits.ReregisteredSubscriberDisagrees | internal/events/manager.go:143-151 | with serial Receive calls, no overflow and no failure, a removed notifier that has not looked at stop leaves the server of its successor with an older payload, the flag clear and the queue empty |
| DeliveryLimits.ServerKeepsWhatItHeld | internal/events/manager.go:115-130 | a server that held a resource deleted between two registrations keeps it, although the first notifier had stopped and nothing was lost |
| DeliveryLoops.DeliveryLoop.constructor | internal/events/notify.go:43-51 | a new notifier, with the snapshot of the log still to replay and a server holding anything at all, satisfies the subscriber invariant |
| DeliveryLoops.DeliveryLoop.Enqueue | internal/events/notify.go:60-70 | with room in the queue the item is appended and the flag left alone; without, the queue is left alone and the flag set; that is the model's enqueue step |
| DeliveryLoops.DeliveryLoop.Deliver | internal/events/notify.go:128-155 | at most five attempts, of which only the last can succeed; unless someone else writes to the server, its map has the event unless all were refused; fewer than five failures end the call only when stop is closed; the invariant holds throughout |
| DeliveryLoops.DeliveryLoop.DrainQueue | internal/events/notify.go:115-123 | it ends at a moment when the queue is empty, whatever is enqueued meanwhile, and keeps the invariant |
| DeliveryLoops.DeliveryLoop.DeliverSnapshot | internal/events/notify.go:100-113 | the queue is drained; what is sent is, in order, the snapshot of a log no older than the call, complete if true is returned and otherwise up to the event that was given up |
| DeliveryLoops.DeliveryLoop.ReplayPast | internal/events/manager.go:120-129 | the snapshot goes out in order, completely or up to the event that was given up, which leaves the flag set; the goroutine starts all the same |
| DeliveryLoops.DeliveryLoop.TakeOne | internal/events/notify.go:78-81 | the head of the queue, and nothing else, is taken and sent, what was queued behind it stays in order, and the flag is set if it is given up |
| DeliveryLoops.DeliveryLoop.Turn | internal/events/notify.go:73-93 | a turn that comes back has taken the head of the queue and sent it first, or, if the timer was armed, the timer; a flag that was set, or a delivery given up, is followed by a snapshot of a log no older than the turn, sent whole or up to the event given up, which alone arms the timer and sets the flag again; without that the rest of the queue stays and the timer is off; a turn that does not come back has taken and sent nothing and has taken stop, or found queue and timer empty |
| DeliveryLoops.DeliveryLoop.Run | internal/events/notify.go:72-94 | the code's loop, with others interleaving: every turn that comes back has taken one more item off the queue except those that took the timer, of which there are none while all attempts are delivered; it ends early only on stop or blocked with nothing queued. As long as nobody else writes to the server: flag clear means agreement, a blocked loop means agreement unless the first replay failed, leftovers are lost Deletes or held over, an undisturbed run is exact if and only if nothing is held over |
| DeliveryLoops.AtRest | internal/events/notify.go:74-91 | what the invariant means between iterations and after stop |
| ProbeTargets.DedupeTargets | pkg/endpointprobe/otelconfigwriter.go:215-239 | for every order of its input: one target per host:port, the one with the lowest instance id, sorted by host:port |
| ProbeTargets.CanonicalUnique | pkg/endpointprobe/otelconfigwriter.go:212-214 | a registry has only one such list, so the result does not depend on map iteration |
| ProbeTargets.BelowMeans | pkg/endpointprobe/otelconfigwriter.go:222-227 | the string comparison is decided at the first position at which the two differ, a prefix being less |
| ProbeTargets.LessTransitive | pkg/endpointprobe/otelconfigwriter.go:222-227 | the comparison handed to the sort is a consistent order |
| ProbeTargets.EndpointAnnotations | pkg/endpointprobe/endpointprobe.go:47-113 | from an instance's annotations: no host means no target, a protocol other than http and https an error; otherwise the target has the id, host, protocol, the given port or 443 or 80, and a path that starts with a slash |
| ConfigWriters.ConfigWriter.Upsert | pkg/endpointprobe/otelconfigwriter.go:66-72 | exactly this instance's entry is set and a flush is requested; it is the protocol's locked step followed by its Notify step |
| ConfigWriters.ConfigWriter.Remove | pkg/endpointprobe/otelconfigwriter.go:76-87 | exactly this entry goes and a flush is requested, by the protocol's two steps, or nothing changes at all |
| ConfigWriters.ConfigWriter.Notify | pkg/endpointprobe/otelconfigwriter.go:90-96 | afterwards the one-slot trigger holds a token, whether it did before or not |
| ConfigWriters.ConfigWriter.Sync | pkg/endpointprobe/watcher.go:20-55 | the event passes through unchanged, the registry reacts as the fold below says, and every change of it is flagged |
| Registries.RegistryFollowsState | pkg/endpointprobe/watcher.go:20-54 | after any well-formed events the registry maps exactly the live ApiInstances with valid endpoint annotations to the target of their latest object |
| Registries.OneRendering | pkg/endpointprobe/otelconfigwriter.go:176-184 | every order in which the registry is copied leads to the same bytes, so "the file matches the registry" has one meaning |
| ConfigRuns.FileStep | pkg/endpointprobe/otelconfigwriter.go:171-210 | every step, including Upsert and Remove during the unlocked part of Flush, keeps the agreement of clean registry and file |
| ConfigRuns.FileAgreement | pkg/endpointprobe/otelconfigwriter.go:171-210 | in every reachable state with a clean registry and no flush under way the file is there and is the rendering of the canonical targets; a failed flush leaves the registry dirty |
| ConfigRuns.NoLostUpdate | pkg/endpointprobe/otelconfigwriter.go:107-161 | from the start of Run until cancellation a dirty registry has a pending Notify, a trigger, a timer, a flush about to look, or a failed flush behind it |
| ConfigRuns.FailedFlushStalls | pkg/endpointprobe/otelconfigwriter.go:134-160 | in every reachable state in which Run waits with a dirty registry, nothing but a new change or cancellation can start a flush exactly when no Notify, token or timer is outstanding; this comes about only after a failed flush |
| ConfigRuns.StallIsReachable | pkg/endpointprobe/otelconfigwriter.go:197-202 | it does come about when the first flush cannot write the file |
| ConfigRuns.RegistryOfRun | pkg/endpointprobe/otelconfigwriter.go:66-87 | in every run the registry is what the Upsert and Remove calls made of it, in order; flushes do not touch it |
| ConfigRuns.FileFollowsEvents | pkg/endpointprobe/watcher.go:10-55 | end to end: if the calls of a run are those the filter makes for well-formed events, then with a clean registry and no flush under way the file is the rendering of the one canonical list of the live ApiInstances' targets |
| ConfigWriters.ConfigWriter.Flush | pkg/endpointprobe/otelconfigwriter.go:171-210 | while others change the registry: the file becomes the rendering of the canonical targets of the registry as locked, or the flush fails under exactly the stated conditions, keeps the file and leaves the registry dirty; if the registry is clean afterwards, the file is there and matches it |
| ConfigWriters.ConfigWriter.Turn | pkg/endpointprobe/otelconfigwriter.go:133-160 | a turn that comes back has taken the token, and the timer runs afresh, or has taken the fired timer, is left with the timer off, and a flush has run to its end on the registry and file as found; one that does not come back has run the final flush on a cancelled context, or found neither token nor timer nor cancellation |
| ConfigWriters.ConfigWriter.Run | pkg/endpointprobe/otelconfigwriter.go:107-161 | the code's loop, with others interleaving: every turn but the last takes the token or, with a flush, the timer, and the loop ends early only by the final flush or with nothing ready; a clean registry is in the file, and while Run waits a dirty one is on its way there or the last flush failed |
| FilterChains.Chain.RegisterFilter | pkg/eventfilter/chain.go:39-51 | the chain stays the list of the remaining registrations, in registration order; the model gets a rule with this id, name and description unless it has one; if every filter had a rule, every filter has one |
| FilterChains.Chain.RemoveFilter | pkg/eventfilter/chain.go:65-75 | the filter with this id, and no other, leaves; the result tells whether there was one |
| FilterChains.Chain.Unregister | pkg/eventfilter/chain.go:59-64 | an unknown id changes nothing; otherwise the filter and its rule go, and the remaining filters keep theirs |
| FilterChains.Chain.SetModel | pkg/eventfilter/chain.go:78-92 | the model is exchanged, the filters are not, and each of them has a rule in the new model afterwards |
| FilterChains.RulesAdded | pkg/eventfilter/chain.go:121-141 | what that adds to the model's rules: one for every filter, none changed that was there, nothing else |
| FilterChains.RulesNamed | pkg/eventfilter/chain.go:121-141 | each rule that is added has the display name and the description of its filter |
| FilterChains.Chain.Apply | pkg/eventfilter/chain.go:99-119 | after any register and unregister history: the left-to-right composition of the remaining filters, each flat-mapped over the batch, in registration order |
| FilterChains.ShortChains | pkg/eventfilter/chain.go:99-119 | an empty chain passes every batch through, and a chain of one filter gives for one event that filter's result |
| FilterChains.PipelineConcat | pkg/eventfilter/chain.go:94-119 | applying a concatenated chain is applying its parts in turn |
| FilterChains.PipelineSplits | pkg/eventfilter/chain.go:94-119 | events of a batch do not influence each other: a batch gives what its parts give, in order |
| FilterChains.UnregisterUndoesRegister | pkg/eventfilter/chain.go:55-75 | registering a filter and unregistering it leaves the other filters as they were |
| FilterChains.UnregisterRemains | pkg/eventfilter/chain.go:65-75 | removing the first entry with an id from the list is removing that registration from the remaining ones |
| FilterChains.FilteringSink.Receive | pkg/eventfilter/sink.go:30-43 | the sink forwards exactly the chain's output in order, or the prefix that ends at the first downstream error |
| WireNormalize.WireMap.NormalizeReplicationWireMap | internal/oapi/replication_normalize.go:7-92 | for every resource kind, the in-place code is the run of that kind's steps over the map |
| WireNormalize.WireMap.CoalesceRefSources | internal/oapi/replication_normalize.go:97-137 | the first usable id among the spellings goes to the canonical key and the other spellings go; with no usable id nothing changes |
| WireNormalize.WireMap.FlattenRefObjectArray | internal/oapi/replication_normalize.go:161-195 | array elements become the ids they carry, all others stay in place |
| WireNormalize.WireMap.CoalesceObject | internal/oapi/replication_normalize.go:247-275 | a reference object is replaced by its id under the key where it was found |
| WireNormalize.WireMap.NormalizeBindingSubject | internal/oapi/replication_normalize.go:198-241 | both spellings of a subject get their nested Group and Identity references replaced by sibling ids |
| WireProperties.StepIsLocal | internal/oapi/replication_normalize.go:94-275 | a step changes no key but its own |
| WireProperties.EachStepActsAlone | internal/oapi/replication_normalize.go:7-92 | steps that share no key do not interfere: under its keys each has the effect it would have alone on the original map |
| WireProperties.StepsAreSound | internal/oapi/replication_normalize.go:7-92 | for every kind, no two steps share a key and every canonical key is among its own spellings |
| WireProperties.OtherKeysUnchanged | internal/oapi/replication_normalize.go:7-92 | keys outside the kind's own step keys keep their values |
| WireProperties.OwnIdUnchanged | internal/oapi/replication_normalize.go:15-50 | in particular the id a resource carries under its own key, for every kind of resource, is never taken for a reference |
| WireProperties.ReferencesCoalesced | internal/oapi/replication_normalize.go:94-137 | for every kind and map: each coalesced reference ends as the first usable id under its canonical key alone, or all its spellings stay as they were |
| WireProperties.SecondPassIsIdle | internal/oapi/replication_normalize.go:7-275 | a second pass changes nothing if and only if no extracted id is itself a reference object and no nested subject reference comes in two spellings |
| WireProperties.StepSettles | internal/oapi/replication_normalize.go:94-275 | the same for a single step, whose condition is on the map before the first pass |
| WireKinds.FirstUsableMeans | internal/oapi/replication_normalize.go:97-127 | the id that is chosen: what the first source key to give anything gives, a string or number itself or the value of the first of the id keys that is not null in an object |
| WireKinds.NormalizedSystem | internal/oapi/replication_normalize.go:10-13 | key by key and for every map: the parent reference ends as its id under "parent" alone, in particular an id under "SystemId" in the object at "Parent", or unchanged if no spelling gives an id; an empty annotations object goes and nothing else changes |
| WireKinds.NormalizedSystemInstance | internal/oapi/replication_normalize.go:15-22 | key by key and for every map: system and context references, each ending as its id under its OpenAPI key with the other spellings gone, or unchanged if no spelling gives an id; an empty annotations object goes and nothing else changes |
| WireKinds.NormalizedAPI | internal/oapi/replication_normalize.go:24-27 | key by key and for every map: system reference, each ending as its id under its OpenAPI key with the other spellings gone, or unchanged if no spelling gives an id; an empty annotations object goes and nothing else changes |
| WireKinds.NormalizedAPIInstance | internal/oapi/replication_normalize.go:29-35 | key by key and for every map: API and system instance references, each ending as its id under its OpenAPI key with the other spellings gone, or unchanged if no spelling gives an id; an empty annotations object goes and nothing else changes |
| WireKinds.NormalizedComponent | internal/oapi/replication_normalize.go:37-40 | key by key and for every map: system reference, each ending as its id under its OpenAPI key with the other spellings gone, or unchanged if no spelling gives an id; an empty annotations object goes and nothing else changes |
| WireKinds.NormalizedComponentInstance | internal/oapi/replication_normalize.go:42-50 | key by key and for every map: component and system instance references, each ending as its id under its OpenAPI key with the other spellings gone, or unchanged if no spelling gives an id; an empty annotations object goes and nothing else changes |
| WireKinds.NormalizedContext | internal/oapi/replication_normalize.go:52-54 | key by key and for every map: type and parent references, each ending as its id under its OpenAPI key with the other spellings gone, or unchanged if no spelling gives an id; an empty annotations object goes and nothing else changes |
| WireKinds.NormalizedNode | internal/oapi/replication_normalize.go:56-57 | key by key and for every map: node type reference, each ending as its id under its OpenAPI key with the other spellings gone, or unchanged if no spelling gives an id; an empty annotations object goes and nothing else changes |
| WireKinds.NormalizedProduct | internal/oapi/replication_normalize.go:59-60 | key by key and for every map: vendor reference, each ending as its id under its OpenAPI key with the other spellings gone, or unchanged if no spelling gives an id; an empty annotations object goes and nothing else changes |
| WireKinds.NormalizedFinding | internal/oapi/replication_normalize.go:62-63 | key by key and for every map: finding type reference, each ending as its id under its OpenAPI key with the other spellings gone, or unchanged if no spelling gives an id; an empty annotations object goes and nothing else changes |
| WireKinds.NormalizedPermission | internal/oapi/replication_normalize.go:65-66 | key by key and for every map: spec reference, each ending as its id under its OpenAPI key with the other spellings gone, or unchanged if no spelling gives an id; an empty annotations object goes and nothing else changes |
| WireKinds.NormalizedRole | internal/oapi/replication_normalize.go:68-79 | key by key and for every map: spec and context references, and both spellings of its permissions, of which exactly the elements that carry an id become it, each ending as its id under its OpenAPI key with the other spellings gone, or unchanged if no spelling gives an id; an empty annotations object goes and nothing else changes |
| WireKinds.NormalizedRoleSpec | internal/oapi/replication_normalize.go:81-86 | key by key and for every map: both spellings of its permissions, of which exactly the elements that carry an id become it; an empty annotations object goes and nothing else changes |
| WireKinds.NormalizedBinding | internal/oapi/replication_normalize.go:88-90 | key by key and for every map: the role, replaced by its id where it stands, and the nested group and identity of either spelling of its subject, each replaced by an id beside it; an empty annotations object goes and nothing else changes |
| WireKinds.NormalizedOther | internal/oapi/replication_normalize.go:7-9 | every other kind: an empty annotations object goes and nothing else changes |

## Left out

- HTTP, DTOs, `pkg/client`, `pkg/endpoint`, the command-line tools, authorization, file sources and certificate findings.
- Payloads are values nothing looks into, except ApiInstances in the probe registry; objects shared by reference and changed after an event was recorded are not modelled.
- Sequence numbers and queue positions are unbounded; wrap-around of the 64-bit counter is not modelled.
- Durations: backoff, attempt timeout, resync delay and debounce appear only as a timer being armed and firing. A timed-out `Notify` that takes effect after a later attempt is not modelled.
- Liveness: no statement says that a resync, a flush or a drain eventually happens. `DrainQueue` ends because a script of other goroutines' steps is finite; against a writer that never pauses it need not.
- Two URLs that reach the same server are taken for two servers. What a server holds changes only by what is sent to it.
- A whole system with many subscribers is a step relation on values (`Subscriptions`), not objects and goroutines; `DeliveryLoop` and `ConfigWriter` run one loop each, with the other goroutines' steps supplied by a script. A loop that never returns in the source runs here for as many iterations as it is given.
- `GetSubscribers`, `SetSinkFactory`, `GetSink` and `GetCurrentSequenceId`, which only read or replace a field.
- `RenderCollectorConfig`, reading and writing the file: rendering is a function of the target list that may fail, writing is atomic and may fail. Nothing else writes the file, and `Run` is the only flusher. The text form of a URL is not modelled; a target carries its parts.
- `NewConfigWriter` rejecting an empty path or a non-positive debounce.
- FilterChains.Chain.RegisterFilter: the Create event that adding a FilterRule makes the model send through the same sink is not modelled, nor is the error `AddFilterRule` returns for a nil UUID. The UUID a registration draws is a parameter, assumed not drawn before.
- FilterChains.Chain.SetModel: as for `RegisterFilter`, the events that adding rules to the new model sends are not modelled.
- FilterChains.Chain.Unregister: the Delete event that removing a FilterRule sends is not modelled; nor are rules that others remove from the model.
- Filters are pure functions of what they see of the model and of the event.
- A filtered sink whose downstream changes the chain while an event is being forwarded.
- Wire maps: two keys that hold the same nested map object; a nested map is a value here, so a change to one would not show under the other.
- `CollectTargets` keeps the first target per key rather than the lowest id; it is not the same list as the config writer's and is not modelled.
- `internal/util/circular_queue.go`, a FIFO without further users in the modelled code.
