# Timestamps and frontiers of a streaming SQL engine, in Dafny

This project models three pieces of the engine's timestamp and frontier bookkeeping, and proves properties of them.

- **Timestamp determination** (`timestamp_selection.dfy`, module `TimestampSelection`).
  - For a read over a bundle of collections, the coordinator computes `since`, the join of the bundle's read capabilities. It also computes `upper`, the union of the bundle's write frontiers.
  - It builds a candidate timestamp by `join_assign`ing, in a fixed order, the bounds that the `QueryWhen` policy and the isolation level admit.
  - It accepts the candidate only when `since` is less-equal to it.
  - `least_valid_read`, `least_valid_write` and the candidate steps are methods with loops. The decision itself is also stated as a function (`Determination`). `DetermineTimestampFor` is proved equal to that function.
- **Partitioned storage state** (`storage_client.dfy`, module `StorageClient`).
  - It merges the per-process answers of a storage cluster so that the controller sees a single worker.
  - Per collection, it keeps a `MutableAntichain` of counts and the upper each shard last reported.
  - It forwards a consolidated upper only when that upper strictly advances. It reports a drop only when the last shard drops.
  - A frontier report that names an unknown collection or shard panics. The panic is an explicit outcome.
  - The source health `Status` (`storage_status.dfy`) has its text round trip and the `superseded_by` rule.
- **Controller** (`controller.dfy`, module `Controller`).
  - The `Readiness` state machine of `ready`/`process`. The branch of `select!` that fires is an input.
  - Watch sets: a token filed under several collections, returned once every one of their write frontiers has passed its time.
  - Each shared `Rc<(time, token)>` is a handle into the map `rcs`, whose `strong` field is the reference count.
  - A ghost map `holders` records which collections' lists hold each handle. The class invariant says that `strong` is the number of such lists.

Support modules:
- `repr.dfy`: 64-bit timestamps, `MINIMUM` and `MAXIMUM`, `step_back`.
- `frontiers.dfy`: antichains of a totally ordered time (empty, or one element), their order, join and meet, and `MutableAntichain`.
- `wrappers.dfy`: `Option` and `Result`.

A strict-serializable read with a timeline, whose policy may or must advance to the timeline's timestamp, linearizes: `get_linearized_timeline` returns the timeline, and `determine_timestamp_for` then asserts that an oracle timestamp is present. That assertion is a requires of `DetermineTimestampFor`. `ExampleStrictSerializable` supplies oracle timestamp 3, behind the since, and the read is placed at the since, 5.

## Model

| member | source | states |
|---|---|---|
| TimestampSelection.TimestampContext.MaybeTimelineTimestamp | src/adapter/src/coord/timestamp_selection.rs:101-111 | Some exactly for a timeline timestamp, holding its timeline and chosen timestamp |
| TimestampSelection.TimestampContext.MaybeTimeline | src/adapter/src/coord/timestamp_selection.rs:91-95 | the timeline, present exactly for a timeline timestamp |
| TimestampSelection.TimestampContext.MaybeTimestamp | src/adapter/src/coord/timestamp_selection.rs:96-100 | the chosen timestamp, present exactly for a timeline timestamp |
| TimestampSelection.TimestampContext.TimestampOrDefault | src/adapter/src/coord/timestamp_selection.rs:113-122 | the chosen timestamp, or the maximum when there is none |
| TimestampSelection.TimestampContext.ToAntichain | src/adapter/src/coord/timestamp_selection.rs:129-133 | the antichain whose only element is `TimestampOrDefault` |
| TimestampSelection.FromTimelineContext | src/adapter/src/coord/timestamp_selection.rs:62-89 | `NoTimestamp` exactly for a timestamp-independent context; otherwise carries the chosen and oracle timestamps; the timeline is the context's own when dependent, else the transaction's, defaulting to epoch milliseconds; requires the asserted timeline agreement |
| TimestampSelection.ContextTimestampOrDefault | src/adapter/src/coord/timestamp_selection.rs:62-133 | a packaged context reads at the chosen time, or at the maximum exactly when timestamp-independent; `contains_timestamp` is false exactly then |
| TimestampSelection.GetTimeline | src/adapter/src/coord/timestamp_selection.rs:229-238 | none exactly for timestamp-independent; the context's timeline, or epoch milliseconds for timestamp-dependent |
| TimestampSelection.GetLinearizedTimeline | src/adapter/src/coord/timestamp_selection.rs:242-270 | a timeline (the bundle's) exactly when one exists and the policy must advance to the timeline timestamp, or may and isolation is strict or strong session serializable |
| TimestampSelection.LeastValidRead | src/adapter/src/coord/timestamp_selection.rs:443-458 | the loop's result is the join of `{minimum}` with every implied capability and compute read capability of the bundle; it dominates each of them and is empty exactly when one of them is |
| TimestampSelection.JoinInstanceReads | src/adapter/src/coord/timestamp_selection.rs:452-454 | the inner loop's result is the join of the capabilities seen before it with the read capability of every compute collection of the instance |
| TimestampSelection.LeastValidWrite | src/adapter/src/coord/timestamp_selection.rs:464-479 | the loop's result is the union (meet) of every write frontier of the bundle; it is below each of them and empty exactly when all are (an empty bundle included) |
| TimestampSelection.MeetInstanceWrites | src/adapter/src/coord/timestamp_selection.rs:473-475 | the inner loop's result is the meet of the frontiers seen before it with the write frontier of every compute collection of the instance |
| TimestampSelection.LargestNotInAdvanceOfUpper | src/adapter/src/coord/timestamp_selection.rs:615-631 | `{u}` gives `u-1`, or the minimum when `u` is the minimum; the empty frontier gives the maximum; apart from `{minimum}` the result is the largest time the upper has not reached |
| TimestampSelection.SessionOracleReadTs | src/adapter/src/coord/timestamp_selection.rs:373-381 | the session oracle's read timestamp, present exactly under strong session serializable with a timeline that has a session oracle |
| TimestampSelection.Candidate | src/adapter/src/coord/timestamp_selection.rs:327-399 | the candidate is at or above every bound the policy and isolation admit (AS OF, since, oracle unless strong session without must-advance, upper's predecessor only under serializable or without a timeline, real-time recency, session oracle, the strong-session minimum of upper and oracle), and is the minimum or one of those bounds |
| TimestampSelection.ChooseCandidate | src/adapter/src/coord/timestamp_selection.rs:327-399 | the step-by-step `join_assign`s compute `Candidate`; the recorded session oracle timestamp is `SessionOracleReadTs` |
| TimestampSelection.JoinQueryBounds | src/adapter/src/coord/timestamp_selection.rs:328-371 | the first five `join_assign`s (AS OF, since, oracle, upper's predecessor, real-time recency) give the join of the minimum with the bounds admitted so far |
| TimestampSelection.JoinSessionBounds | src/adapter/src/coord/timestamp_selection.rs:373-398 | under strong session serializable, the last two `join_assign`s add the session oracle's timestamp and the lesser of the upper's predecessor and the oracle timestamp; the returned session timestamp is `SessionOracleReadTs` |
| TimestampSelection.TimestampNotValidError | src/adapter/src/coord/timestamp_selection.rs:481-519 | the error names exactly the storage collections whose read capabilities, and the compute collections of the query's instance whose read frontiers, are not less-equal to the candidate |
| TimestampSelection.TimestampDetermination.RespondImmediately | src/adapter/src/coord/timestamp_selection.rs:689-696 | true exactly when there is no timestamp or every element of the upper is beyond the chosen timestamp |
| TimestampSelection.Determination | src/adapter/src/coord/timestamp_selection.rs:279-440 | succeeds exactly when `since` is less-equal to `Candidate` of the inputs; on success the chosen time is that candidate, since and upper are the bundle's join and union, the chosen time is at or above the AS OF, oracle (when admitted), session oracle and real-time-recency times, and the context is `NoTimestamp` exactly when timestamp-independent; on failure the error carries that candidate and names the offending collections |
| TimestampSelection.DetermineTimestampFor | src/adapter/src/coord/timestamp_selection.rs:279-440 | the method's result is `Determination` of its inputs; requires the two conditions the source asserts (oracle timestamp present when linearizing; real-time recency only under strict serializable with the option on) |
| TimestampSelection.SerializableReadRespondsImmediately | src/adapter/src/coord/timestamp_selection.rs:351-361 | a serializable read with no AS OF, oracle or recency timestamp over inputs with since below upper succeeds at the upper's predecessor and responds immediately |
| TimestampSelection.ExampleFrontiers | src/adapter/src/coord/timestamp_selection.rs:443-479 | the example bundle (one storage collection) has since `{5}` and upper `{10}` |
| TimestampSelection.ExampleSerializable | src/adapter/src/coord/timestamp_selection.rs:279-440 | a serializable read of the example reads at 9 and responds immediately |
| TimestampSelection.ExampleStrictSerializable | src/adapter/src/coord/timestamp_selection.rs:242-270 | a strict-serializable read of the example needs the oracle; with oracle timestamp 3 it reads at the since, 5, and responds immediately |
| TimestampSelection.ExampleInvalidTimestamp | src/adapter/src/coord/timestamp_selection.rs:408-423 | a read AS OF 2 of the example fails, naming the storage collection |
| StorageStatus.StatusFromStr | src/storage-client/src/client.rs:301-315 | parses back a status whose name is the text; rejects any other text with the message "… is not a valid status" |
| StorageStatus.StatusRoundTrip | src/storage-client/src/client.rs:301-330 | parsing the name of a status gives the status |
| StorageStatus.ToStrInjective | src/storage-client/src/client.rs:317-330 | distinct statuses have distinct names |
| StorageStatus.SupersededByRules | src/storage-client/src/client.rs:332-345 | nothing supersedes `Dropped`; `Dropped` supersedes every other status; `Ceased` only by `Dropped`; everything but `Dropped` by `Ceased`; not `Paused` by `Paused`; everything else is superseded |
| StorageStatus.TerminalStatusesAreSticky | src/storage-client/src/client.rs:332-345 | along a history of successive supersessions, `Dropped` can only be last and `Ceased` is only followed by `Dropped` |
| StorageClient.FreshEntry | src/storage-client/src/client.rs:640-648 | a new collection's counts hold `parts` at the minimum and nothing else; it has `parts` slots, each `Some({minimum})` |
| StorageClient.WithNewUppers | src/storage-client/src/client.rs:638-651 | untracked ids get a fresh entry; tracked ids keep theirs; no other id appears |
| StorageClient.WithNewUppersUnion | src/storage-client/src/client.rs:619-626 | inserting two batches of ids one after the other is inserting their union |
| StorageClient.CommandIds | src/storage-client/src/client.rs:608-634 | ingestions start tracking their subsource ids, sinks their ids, every other command none |
| StorageClient.Fanout | src/storage-client/src/client.rs:658-677 | `CreateTimely` becomes one command per piece of the split configuration, with the same epoch; any other command becomes exactly `parts` identical copies |
| StorageClient.AbsorbUpper | src/storage-client/src/client.rs:695-701 | each time of the shard's old upper loses one count, each time of the report gains one, and the shard's slot becomes the join of the old upper and the report |
| StorageClient.AbsorbUppers | src/storage-client/src/client.rs:686-702 | a whole report absorbed pair by pair in order keeps every entry's counts compacted and changes neither the tracked ids nor which slots are live |
| StorageClient.AbsorbUppersPanics | src/storage-client/src/client.rs:690-698 | a report panics exactly when it names an id that is untracked, or whose slot for the shard is missing or `None`, with that id's panic |
| StorageClient.AbsorbUppersFrame | src/storage-client/src/client.rs:686-702 | a report leaves the entries of ids it does not name unchanged |
| StorageClient.AbsorbUppersPanicPersists | src/storage-client/src/client.rs:688-698 | once a prefix of a report panics, the whole report panics with the same reason |
| StorageClient.EmittedUppersNamed | src/storage-client/src/client.rs:703-706 | only ids the report names are forwarded |
| StorageClient.EmittedUppersAdvances | src/storage-client/src/client.rs:686-706 | a pair `(id, f)` is forwarded exactly when some step of the report for `id` strictly advanced the consolidated frontier to `f` |
| StorageClient.ForwardedMembers | src/storage-client/src/client.rs:703-706 | a pair is kept exactly when it comes from a step whose frontier strictly advanced to it |
| StorageClient.EmittedUppersSnoc | src/storage-client/src/client.rs:688-706 | absorbing one more pair forwards what the shorter report did, followed by that pair's id and new frontier exactly when the frontier strictly advanced |
| StorageClient.StepsMeaning | src/storage-client/src/client.rs:689-704 | the `k`th step is the entry of the `k`th pair's id before and after absorbing that pair, so `old_upper` and `new_upper` are that entry's frontiers |
| StorageClient.StepsPrefix | src/storage-client/src/client.rs:688-706 | a prefix of a report that absorbs also absorbs on its own, and its steps are the report's first steps |
| StorageClient.RepeatedReportForwardsNothing | src/storage-client/src/client.rs:695-706 | re-reporting a shard's current upper for a tracked id leaves the map unchanged and forwards nothing |
| StorageClient.DropShard | src/storage-client/src/client.rs:723 | the shard's slot becomes `None`; the other slots and the counts are unchanged |
| StorageClient.AfterDrops | src/storage-client/src/client.rs:715-733 | each dropped id loses the shard's slot and is removed once no slot is live; other ids are untouched |
| StorageClient.DropsEmitted | src/storage-client/src/client.rs:728-731 | exactly the dropped ids with no live slot left, all of which leave the map |
| StorageClient.TrackedFrontier | src/storage-client/src/client.rs:695-702 | while the counts match the shards' last uppers, the consolidated frontier is the meet of those uppers |
| StorageClient.FreshEntryTracks | src/storage-client/src/client.rs:640-648 | a new collection satisfies that invariant, with frontier `{minimum}` (empty when there are no shards) |
| StorageClient.AbsorbUpperTracks | src/storage-client/src/client.rs:695-701 | a shard reporting an upper no earlier than its previous one keeps the invariant, and its slot becomes the report |
| StorageClient.AbsorbUpperMonotone | src/storage-client/src/client.rs:695-702 | such a report never moves the consolidated frontier back |
| StorageClient.AllShardsReportedConsolidate | src/storage-client/src/client.rs:686-713 | once every shard has reported `u`, the consolidated frontier is `u`, as for a single worker |
| StorageClient.LaggingShardHoldsFrontier | src/storage-client/src/client.rs:686-713 | the consolidated frontier is never beyond any shard's last upper |
| StorageClient.RepeatedReportIsNoOp | src/storage-client/src/client.rs:695-706 | re-reporting a shard's current upper leaves the entry unchanged, counts and slots alike |
| StorageClient.StaleUpperPinsFrontier | src/storage-client/src/client.rs:695-701 | with one shard reporting `{5}`, then `{3}`, then `{7}`, the counts follow the raw reports while the slot keeps the join; the frontier stays at `{3}` and the invariant is lost, so consolidation depends on shards never regressing |
| StorageClient.AllDroppedExactlyWhenEveryShardDropped | src/storage-client/src/client.rs:723-733 | after drops from a set of shards, no slot is live exactly when every shard has dropped |
| StorageClient.ThreeShardDrop | src/storage-client/src/client.rs:715-739 | with three shards, the first two drops emit nothing and keep the id; the third emits it and removes it |
| StorageClient.PartitionedStorageState.constructor | src/storage-client/src/client.rs:596-601 | nothing tracked, `parts` as given |
| StorageClient.PartitionedStorageState.InsertNewUppers | src/storage-client/src/client.rs:638-651 | the loop leaves `uppers` equal to `WithNewUppers` of the listed ids, keeping the class invariant |
| StorageClient.PartitionedStorageState.ObserveCommand | src/storage-client/src/client.rs:608-634 | `uppers` becomes `WithNewUppers` of the command's ids |
| StorageClient.PartitionedStorageState.ObserveIngestions | src/storage-client/src/client.rs:621-623 | each ingestion's subsource ids are inserted in turn |
| StorageClient.PartitionedStorageState.ObserveSinks | src/storage-client/src/client.rs:624-626 | each sink's id is inserted in turn |
| StorageClient.PartitionedStorageState.SplitCommand | src/storage-client/src/client.rs:658-677 | observes the command, then returns `Fanout` |
| StorageClient.PartitionedStorageState.AbsorbFrontierUppers | src/storage-client/src/client.rs:686-714 | panics exactly as `AbsorbUppers` does; otherwise the new state is `AbsorbUppers` and the result forwards the strictly advanced uppers, or nothing when none advanced |
| StorageClient.PartitionedStorageState.AbsorbDroppedIds | src/storage-client/src/client.rs:715-740 | panics exactly when an id is untracked or the shard already dropped it (a double drop when the slot exists but is `None`); otherwise the state is `AfterDrops` and the result forwards `DropsEmitted`, or nothing |
| StorageClient.PartitionedStorageState.AbsorbResponse | src/storage-client/src/client.rs:679-754 | dispatches on the response; statistics and status updates are forwarded unchanged and leave the state alone |
| Controller.ReadinessFor | src/controller/src/lib.rs:246-259 | each `select!` branch records its own readiness, never `NotReady` or `Internal` |
| Controller.ReadyTransition | src/controller/src/lib.rs:239-262 | from `NotReady`, queued immediate watch sets give `Internal`, else the event's readiness; any other readiness is kept |
| Controller.ReadyIsIdempotent | src/controller/src/lib.rs:239-262 | a second `ready` before `process` keeps the first choice |
| Controller.StillBehind | src/controller/src/lib.rs:270-283 | keeps exactly the objects whose current write frontier (compute's, else storage's) is less-equal to `t` |
| Controller.AddWatcher | src/controller/src/lib.rs:286-294 | every kept object's list (empty if absent) gets the handle appended; no other list changes |
| Controller.AddWatcherConsistent | src/controller/src/lib.rs:286-294 | filing a fresh handle with count `|kept|` under the kept objects keeps the reference-counting invariant |
| Controller.PassingHandles | src/controller/src/lib.rs:361-362 | exactly the handles in the id's list whose time the frontier has passed |
| Controller.ReleaseRcs | src/controller/src/lib.rs:363-365 | each passing handle loses one reference, and goes when it had one; contents are unchanged |
| Controller.ReleaseConsistent | src/controller/src/lib.rs:357-376 | dropping the id's passing handles and the id's emptied list keeps the reference-counting invariant |
| Controller.ReleasedAfterStep | src/controller/src/lib.rs:357-377 | after one more update, a handle is live exactly while some id holding it has not seen its time passed, and the handles released so far are listed once each |
| Controller.HandleUpdateStep | src/controller/src/lib.rs:357-376 | what one update released extends the handles and tokens released so far, keeping `ReleasedAfter` for one more update |
| Controller.SwapRemove | src/controller/src/lib.rs:363 | one element shorter; on a list without repeats, removes exactly that element and keeps the list without repeats |
| Controller.Sweep | src/controller/src/lib.rs:360-369 | the loop keeps exactly the entries not passed, releases one reference of each passed one, and returns, once each, the tokens of those whose last reference went |
| Controller.SweepStep | src/controller/src/lib.rs:360-369 | dropping the reference of one more passed handle keeps the sweep's invariant: a handle is released, and its token returned, exactly when that was its last reference |
| Controller.Least | src/controller/src/lib.rs:270-283 | the smallest element of a non-empty set of ids |
| Controller.AppendToLists | src/controller/src/lib.rs:288-293 | the loop's result is `AddWatcher` |
| Controller.Controller.constructor | src/controller/src/lib.rs:460-469 | not ready, no watch sets, nothing queued |
| Controller.Controller.Ready | src/controller/src/lib.rs:239-262 | readiness becomes `ReadyTransition`; nothing else changes |
| Controller.Controller.InstallWatchSet | src/controller/src/lib.rs:264-295 | panics at the smallest object known to neither controller; otherwise queues the token when no object is behind `t`, or files one fresh shared allocation, counted once per object behind, under exactly those objects |
| Controller.Controller.QueueImmediate | src/controller/src/lib.rs:284-285 | the token is appended to the immediate watch sets; the watch sets are unchanged |
| Controller.Controller.Watch | src/controller/src/lib.rs:286-294 | a fresh handle holding `(t, token)` with count `|kept|` is appended to the list of every kept object |
| Controller.Controller.ReleasePassed | src/controller/src/lib.rs:358-376 | one update removes from the id's list exactly the passed entries, drops their references, removes an emptied list, leaves other ids' lists alone, and returns the tokens of the allocations freed |
| Controller.Controller.ReleaseUpdate | src/controller/src/lib.rs:357-377 | one iteration of the update loop: the class invariant holds, readiness and queued tokens are unchanged, and the released handles and returned tokens are extended by that update's |
| Controller.Controller.HandleFrontierUpdates | src/controller/src/lib.rs:352-379 | after the updates, an allocation is live exactly while some object it was filed under has not seen a frontier pass its time; each freed allocation's token is returned exactly once; the result is none exactly when nothing was freed |
| Controller.Controller.Process | src/controller/src/lib.rs:305-349 | readiness is always reset; `NotReady` and `Frontiers` give nothing; a storage error is passed on; frontier updates from storage or compute go through `HandleFrontierUpdates`; compute and metrics responses are forwarded; `Internal` empties the immediate watch sets and returns them exactly when non-empty |

## Left out

- `evaluate_when` (AS OF / UP TO expression evaluation) is not modelled. The AS OF time is an input, already evaluated.
- The diagnostic shadow determination and its metrics are not modelled.
- The asynchronous oracle fetch (`oracle_read_ts`) is not modelled. Its result is a parameter.
- The coordinator's `TimestampProvider` implementation is replaced by maps from ids to frontiers. Every id of a bundle is required to be present, as the accessors `expect`.
- Display and formatting are not modelled.
- TimestampNotValidError: the formatted message lists the offending sinces. The model returns the ids of the offending collections, in sets, instead of the text.
- Protobuf encoding, `Arbitrary` strategies and the gRPC plumbing are not modelled.
- The packing of a `StatusUpdate` into a `Row` is not modelled.
- The split of the timely configuration for `CreateTimely` and `IngestionDescription::subsource_ids` are external. Their results are inputs.
- `insert_new_uppers` casts `parts` to `i64` for the initial count. The model uses an unbounded count, since a process count never nears 2^63.
- StorageClient.PartitionedStorageState.AbsorbFrontierUppers: the state after a panic is left unspecified. The source mutates entries before the panicking pair, but a panic ends the process.
- StorageClient.PartitionedStorageState.AbsorbDroppedIds: the panicking id is some offending id, not a particular one. The source visits ids in ascending order.
- The consolidation lemmas assume each shard's uppers never regress. `StaleUpperPinsFrontier` shows what happens otherwise.
- Statistics and status payloads are not modelled, beyond what they are forwarded with.
- Controller construction, `record_frontiers`, the metrics channel, the orchestrator and the frontier ticker are not modelled.
  - The `select!` in `ready` is an event parameter.
  - The results of the storage and compute controllers' `process` and of the metrics channel are parameters of `Process`.
- Peek, subscribe and copy-to payloads, and replica metrics, are kept opaque.
- Controller.Controller.ReleasePassed: lists after `swap_remove` are specified by membership, without duplicates, rather than by order. The order of the returned tokens is stated through the ghost sequence of freed handles.
- `QueryWhen` is a record of an optional AS OF time and four flags, so it admits combinations that none of the source's variants produces. The lemmas hold for all of them.
- Tokens are opaque numbers, where the source has boxed values of any type.
