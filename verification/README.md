# Forcerelay, modelled in Dafny

Forcerelay is an IBC relayer: it opens connections and channels between two chains, keeps their light
clients alive, routes chain events to workers and stores the headers it has verified. This project
models the parts of it whose correctness depends on whole runs, and proves what they promise.

* **Opening handshakes** (`Ends`, `Driver`, `Safety`, `FreshRuns`, `AnyRuns`, `Repeats`,
  `HeldRuns`, `Outcomes`, `Reconciliation`, `Workers`, `Traces`, `SoloRun`, `Convergence`). One theory covers channels (ICS-004) and
  connections (ICS-003). A chain maps each identifier to all versions its end has had. A run is a sequence of passes of the retry loop. Before
  every access of the relayer to a chain, other relayers may submit any datagrams. Each query may be
  answered with the latest version, an older one, as if the end did not exist, or not at all. Each
  submission may succeed, be dropped, or be executed without the relayer learning of it.
  The handlers of the chains are not part of the repository. They are the environment: Init and Try
  allocate a new identifier, a counterparty is written once, and Try, Ack and Confirm need a version
  the other end really had. `Ends.ReachableIsSound` shows that the binding invariant `Sound`, from
  which the theorems start, holds of every pair of chains such datagrams can produce.
* **Light-client updates** (`Heights`, `Timestamps`, `ForeignClient`, `Refresh`, `Misbehaviour`).
* **Event routing** (`Supervisor`).
* **Header storage** (`Mmr`, `Storage`): the digests of a Merkle mountain range in a database, a
  cached base slot, and a rollback that leaves digests behind.
* **Backlog, cache and links** (`Backlog`, `EndCache`, `Links`).

Objects that the relayer updates in place are classes whose methods are proved to compute functions
of the old state. The theorems over runs are lemmas about those functions.

## What the code does not promise

Each of these is proved, with the exact condition where one is given.

* Reconciliation is a private function that only the handshakes of new objects reach, and there it
  never panics. For arbitrary identifiers it would panic exactly when side a was created by Try for an
  end since bound to another one and side b is not that end (`PanicsExactlyOnOrphans`). No object is
  built with such identifiers: those restored from an event or from the state of an end would not meet
  the panic either (`RestoredNeverPanics`, `RestoredIsSane`).
* Old answers are harmless, but an answer that denies an end exists can make a fresh relayer repeat
  itself: a second Init if side a is denied and no end shows on side b, a second Try if side a shows Init
  and side b is denied (`MissingAnswerRepeatsInit`, `MissingAnswerRepeatsTry`). If both held ends are
  denied, side a is replaced while side b still answers the old end (`BothDeniedBreaksHeld`). The
  conditions are exact over whole runs with arbitrary answers: for what is held (`HeldInEveryRun`), for
  side a (`SideAIsStable`), for the order of messages (`MessagesInOrderExactly`) and for their repetition
  (`EachMessageOnceExactly`). A handshake that reports success is right in all of these runs
  (`FinishedMeansLinked`).
* Alone and without failures, a connection handshake ends only if both chains report the same single
  version (`FinishesOnFifthPass`).
* A Try the driver sends after another relayer has answered is still a message of the workers, but only
  of one that looked before the answer: for an answered end no worker decides to send Try
  (`TrySentExactly`, `DriverTraceIsWorkerTrace`).
* `solve_trusted_height` misses the greatest stored height below the target exactly when a stored
  height lies between the client's latest height and the target (`SolvesToGreatestBelow`, input in
  `MissesGreatestBelow`).
* A rollback to a slot above the tip is accepted and brings headers back into view that an earlier
  rollback gave up; so does a commit that leaves a gap above the tip (`RollbackAboveTip`,
  `CommitAboveTip`). The storage shows exactly the current chain as long as operations stay within it
  (`VisibleIsCurrent`).
* A failure between writing the base slot and the first digest leaves a storage that counts as
  initialized and refuses the same headers until it is rolled back to nothing (`InterruptedInitializationIsStuck`).
* A commit that replaces stored headers and is interrupted leaves the tip where it was, and only the
  headers below the replaced ones are sure to be intact; one that continues the chain loses nothing (`CommitHeaders`).
* Five failed transaction queries are reported like an absent update event, so they end the
  misbehaviour scan quietly (`FetchUpdateEvent`, `DetectMisbehaviour`).
* The sum of refresh period, polling gap and latency is a tight bound (`BoundIsTight`).
* The per-object queues live in a hash map, so objects are served in no particular order, while the
  delivery of each queue keeps batch order (`Supervisor.Supervisor.DeliverAll`).

## Model

| member | source | states |
|---|---|---|
| Driver.Handshake.constructor | crates/relayer/src/channel.rs:189-227 | a new object holds no identifier and has sent nothing |
| Driver.Handshake.UpdateAndQueryStates | crates/relayer/src/channel.rs:552-601 | updating the two fields step by step, with early returns, computes `Observe`: the identifiers after both answers, also when the second query fails after the first already repaired side b |
| Driver.Handshake.DoOpenHandshake | crates/relayer/src/channel.rs:605-699 | one step of the driver computes `RunPass`: identifiers, chains, sent messages and outcome |
| Driver.Handshake.Run | crates/relayer/src/channel.rs:702-729 | the retry loop computes `RunAll`: it stops at the first outcome that is not a retry |
| Driver.TryAttribute | crates/relayer/src/connection.rs:965-1074 | a Try carries the ordering or delay of the queried source end, whatever the object holds |
| Outcomes.ChoosesWhatIsCalledFor | crates/relayer/src/channel.rs:605-699 | the driver sends side a the message its state calls for given the other's, else side b the one its state calls for, and is done exactly with two open ends |
| Outcomes.PassEndsExactly | crates/relayer/src/channel.rs:605-713 | a pass panics exactly on a mismatch, finishes exactly when both queries show an open end, and gives the handshake up exactly when an access it makes reports an expired or frozen client; otherwise it is retried |
| Outcomes.HaltsExactly | crates/relayer/src/connection.rs:659-683 | a handshake is given up if and only if an access made in one of its passes reports an expired or frozen client |
| Outcomes.TransientErrorsAreRetried | crates/relayer/src/channel.rs:702-729 | while no access reports a frozen client, every run from a sane start finishes or goes on, whatever else fails |
| Safety.ReconcileSane | crates/relayer/src/channel.rs:552-601 | reconciling against two chains queried at different times, with any answers, never mismatches and keeps side a unset, Init-created or created for side b |
| Safety.PassSane | crates/relayer/src/connection.rs:567-656 | every pass leads to a later world, keeps the identifiers sane and does not reach the mismatch panic |
| Safety.NeverPanics | crates/relayer/src/channel.rs:552-729 | in every run, with any interference, stale or missing answers and lost replies, the mismatch panic is unreachable from a sane start such as a new object |
| HeldRuns.HeldExactly | crates/relayer/src/channel.rs:552-699 | with arbitrary answers, after a pass side a is still the relayer's own Init end and side b unset or an answer to it, if and only if the pass does not go through with an Init after both held ends were denied |
| HeldRuns.HeldInEveryRun | crates/relayer/src/channel.rs:552-699 | over every run from a new object with arbitrary answers, this holds after every pass if and only if no pass is of that kind |
| HeldRuns.SideAIsStable | crates/relayer/src/channel.rs:552-699 | over every run from a new object with arbitrary answers, a set side a is never changed if and only if chain a never executes an Init sent after it denied the held end and no end showed on side b |
| Repeats.SideAChangesExactly | crates/relayer/src/channel.rs:552-699 | with arbitrary answers, a pass changes side a if and only if chain a denies its end, no end shows on side b, and the resulting Init goes through |
| FreshRuns.ReachedLater | crates/relayer/src/channel.rs:605-699 | the stage of the handshake visible in identifiers and chains never decreases, whatever others submit |
| FreshRuns.ExecutedStage | crates/relayer/src/channel.rs:605-699 | a message the chain accepts belongs to a stage not reached before and reached after |
| HeldRuns.MessagesInOrderExactly | crates/relayer/src/channel.rs:605-729 | over every run from a new object with arbitrary answers, at most one Init, Try, Ack and Confirm succeed, in this order and each to its side, if and only if no pass goes through with an Init after both ends were denied, or with a Try after side b was denied and more than Init was sent |
| Repeats.ChosenExactly | crates/relayer/src/channel.rs:605-699 | with arbitrary answers: exactly when a pass chooses Init or Try, and that it never chooses a message out of the four stages |
| Repeats.StageRepeatsExactly | crates/relayer/src/channel.rs:605-729 | with arbitrary answers, a pass reports a message of a stage already reached if and only if an Init goes through after both ends were denied, or a Try after side a showed Init and the end held for side b was denied |
| Repeats.EachMessageOnceExactly | crates/relayer/src/channel.rs:605-729 | over every run with arbitrary answers, each message is reported at most once if and only if no pass repeats an Init or a Try in this way |
| AnyRuns.FinishedMeansLinked | crates/relayer/src/channel.rs:552-729 | in every run, whatever the queries answer, success means that the two held ends reference each other, both were open and both carry the requested attribute, and that side a has the terms it was to be created with |
| AnyRuns.OpenedConnectionDelay | crates/relayer/src/connection.rs:156-188 | in every run, both ends of a connection opened by a new object have the same delay, at most `MAX_PACKET_DELAY` |
| Reconciliation.SettleStep | crates/relayer/src/connection.rs:514-563 | one call keeps consistent identifiers, and otherwise makes them consistent or takes side a over from an end that lost a race |
| Reconciliation.ReconcilesExactly | crates/relayer/src/channel.rs:552-601 | with any answers: side b becomes the counterparty chain a shows, even when chain b then fails to answer; side a becomes the one chain b shows unless side b was just changed, which is the mismatch; a failed query of chain a changes nothing |
| Reconciliation.SettlesInTwoCalls | crates/relayer/src/connection.rs:514-563 | on fixed chains, from side a unset or Init-created and side b arbitrary, two calls reach a fixpoint at which each counterparty names the identifier held for the other side, without a panic |
| Reconciliation.PanicsExactlyOnOrphans | crates/relayer/src/connection.rs:514-563 | as a function of arbitrary identifiers, reconciliation panics if and only if side a is an orphaned Try end and side b is not its counterparty |
| Reconciliation.OrphanIsReachable | crates/relayer/src/channel.rs:552-601 | that condition is not void: four datagrams on empty chains and a pair of identifiers meet it |
| Reconciliation.RestoredIsSane | crates/relayer/src/channel.rs:229-284 | the identifiers restored from any event of an end, at any later time, are sane; for an Init-created end so are those with any answer a search finds for side b |
| Reconciliation.RestoredNeverPanics | crates/relayer/src/connection.rs:190-218 | no run from restored identifiers would reach the mismatch panic |
| Reconciliation.NeverTargetsForeignEnd | crates/relayer/src/channel.rs:913-965 | in every state, with any answers and interference: an Ack or Confirm that is built and accepted found its target on the expected hop, free or bound to exactly the held source, and leaves it open and bound to that source |
| Reconciliation.TryTakesTheSourceAttribute | crates/relayer/src/channel.rs:967-1058 | a Try for an Init-created end is accepted while that end is provably at Init, and creates an end with the same ordering or delay, whatever the object holds |
| Reconciliation.TryNamesItsSource | crates/relayer/src/channel.rs:967-1058 | a Try names the end it answers, its port or client and prefix, lies on the destination's own connection or client, offers the versions of that end, and for a channel is built only if that end names the destination's port |
| Workers.TrySentExactly | crates/relayer/src/channel.rs:749-781 | whatever the worker finds across, it sends Try for an Init event if and only if no end answers yet, and goes on watching either way |
| Workers.WorkerSendsExactly | crates/relayer/src/channel.rs:749-781 | a worker sends the opening message the state across calls for, the same relation as for the driver, and a closing one exactly for a closed channel end whose other end is not closed |
| Workers.WorkerAbortsExactly | crates/relayer/src/connection.rs:711-737 | a worker aborts with every message but a Try, and without one exactly when nothing is left for it |
| Workers.ActKeepsDone | crates/relayer/src/channel.rs:749-781 | over every step of workers and others, a worker that has aborted has an end that is closed, bound to an end past TryOpen, or an answer to an end past Init |
| Workers.WorkersNeverDeadlock | crates/relayer/src/channel.rs:731-816 | after every run of workers and other relayers, for an Init-created end and the end bound to it or still able to be, neither closed, a worker that has not aborted has a message to send if and only if the ends are not both open |
| Traces.DriverTraceIsWorkerTrace | crates/relayer/src/channel.rs:605-816 | for every run of a fresh driver with arbitrary answers whose messages succeed in order, some legal run of the workers reaches the same chains and sends exactly the messages reported after Init |
| SoloRun.AckPass | crates/relayer/src/connection.rs:1113-1189 | the third undisturbed pass sends the Ack exactly when the created end carries the versions side b reports, and otherwise changes nothing |
| SoloRun.ConfirmPass | crates/relayer/src/connection.rs:1225-1281 | the fourth undisturbed pass sends the Confirm exactly when the created end carries the versions side a reports |
| SoloRun.FinishesOnFifthPass | crates/relayer/src/channel.rs:605-729 | alone and without failures a run of any length finishes on exactly the fifth pass, or never if the reported connection versions disagree |
| SoloRun.CreationFinishes | crates/relayer/src/connection.rs:156-188 | creating a connection is refused exactly for a delay above the maximum; otherwise, left alone with versions that agree, it is open after five passes, as every channel is |
| SoloRun.MissingAnswerRepeatsInit | crates/relayer/src/channel.rs:552-699 | for every object and world, an answer that denies the new end on side a makes two Inits succeed and side a change |
| SoloRun.MissingAnswerRepeatsTry | crates/relayer/src/channel.rs:552-699 | for every object and world, an answer that denies the new end on side b makes two Tries succeed and side b change |
| SoloRun.BothDeniedBreaksHeld | crates/relayer/src/channel.rs:552-699 | for every object and world, answers that deny both new ends make side a change while side b answers the old end |
| Convergence.PassAdvances | crates/relayer/src/channel.rs:605-699 | an undisturbed pass finishes the handshake or leaves exactly one pass less to go |
| Convergence.FinishesWhenLeftAlone | crates/relayer/src/channel.rs:605-729 | from every state that interference can leave of the held ends, neither closed and with suitable terms, the handshake left alone finishes on exactly the pass the chains tell, at the latest the fifth |
| Convergence.FinishesAfterFailures | crates/relayer/src/channel.rs:702-729 | any passes whose queries or submissions fail without reporting a frozen client only delay: followed by as many undisturbed ones as were left before, they finish the handshake |
| Heights.SortDescending | crates/relayer/src/foreign_client.rs:1382-1404 | the consensus heights are put in descending (revision, height) order and are a permutation of those returned |
| Heights.OrderedByRevision | crates/relayer-types/src/core/ics02_client/height.rs:66-106 | heights are ordered by revision first and then by height, totally and transitively, and the next height follows at once |
| ForeignClient.SolvesToGreatestBelow | crates/relayer/src/foreign_client.rs:872-917 | the search fails if and only if no stored height is below the target; its result is the greatest such height if and only if none lies between the client's latest height and the target |
| ForeignClient.MissesGreatestBelow | crates/relayer/src/foreign_client.rs:872-917 | an input on which the search misses the greatest stored height below the target |
| ForeignClient.TrustInNumbers | crates/relayer/src/foreign_client.rs:749-788 | the trusting-period check passes up to and including the last moment of the period, and gives the age of the consensus state; it fails to answer exactly without consensus state or source time |
| ForeignClient.DriftInNumbers | crates/relayer-types/src/timestamp.rs:157-200 | a header at time t is acceptable at destination time s if and only if t <= s + drift within the range of times, ahead if and only if t > s + drift within it; an unset time is never ahead |
| ForeignClient.WaitForHeaderValidationDelay | crates/relayer/src/foreign_client.rs:960-1036 | the first reply that decides is the last one asked for; with its time s, the header time t and the drift: success if and only if t <= s + drift in range, overflow if and only if out of range, header in the future if and only if t > s + drift; at most one new block is waited for |
| ForeignClient.BuildUpdateClient | crates/relayer/src/foreign_client.rs:1091-1197 | messages are returned if and only if the client is not frozen, it and a trusted height below the target are within the trusting period, a header and a signer are had, and the header is not after the last observed destination time plus drift; they are the supporting headers in order, then the target; an empty result needs a caller-supplied height at or above the target; expiry or freezing is reported if and only if it holds |
| ForeignClient.FindTrusted | crates/relayer/src/foreign_client.rs:1096-1129 | a trusted height is found if and only if the client and the height are usable; it is the one the caller asked for, else the latest height below the target, else the greatest stored one below it |
| ForeignClient.BuildMessages | crates/relayer/src/foreign_client.rs:1140-1197 | messages are built if and only if header and signer are had and the wait succeeds |
| Refresh.NeverExpires | crates/relayer/src/foreign_client.rs:803-853 | if refresh period, polling gap and latency together do not exceed the trusting period, the client validates at every time of every run |
| Refresh.RefreshesExactly | crates/relayer/src/foreign_client.rs:830-853 | a refresh updates the client if and only if it is neither frozen nor expired and more than two thirds of its trusting period have passed |
| Refresh.BoundIsTight | crates/relayer/src/foreign_client.rs:803-853 | if the sum exceeds the trusting period, some legal run lets the client expire |
| Misbehaviour.FetchUpdateEvent | crates/relayer/src/foreign_client.rs:1277-1340 | the first answered query of at most five decides; no answer at all counts as no event |
| Misbehaviour.CheckHeight | crates/relayer/src/foreign_client.rs:1492-1583 | one height is passed, ends the scan, gives evidence or fails exactly for the stated causes |
| Misbehaviour.DetectMisbehaviour | crates/relayer/src/foreign_client.rs:1449-1595 | evidence is for a height all of whose greater heights were clean or skipped; a quiet result or an error likewise comes from the greatest height not passed, with its exact cause |
| Supervisor.QueueOfConcatenation | crates/relayer/src/supervisor.rs:405-562 | the queue of two batches in a row is one queue after the other |
| Supervisor.QueueCounts | crates/relayer/src/supervisor.rs:405-562 | an event is queued for an object exactly as often as it is in the batch if it is meant for the object, else never |
| Supervisor.QueuedTwiceOnlyOnAck | crates/relayer/src/supervisor.rs:405-562 | only the acknowledgement of a channel opening goes to two objects, a client and a channel |
| Supervisor.TargetsExactly | crates/relayer/src/supervisor.rs:405-562 | an event is routed to exactly the objects it is meant for: the mode enables their kind, events of this kind concern them, the chain resolves the event to them, and a client update finds their worker |
| Supervisor.LastNewBlock | crates/relayer/src/supervisor.rs:418-420 | the remembered block is one of the batch after which no other comes, or none if the batch has none |
| Supervisor.RelayedExactly | crates/relayer/src/supervisor.rs:314-382 | packets and channels have to pass the channel filter and the client filter, clients and connections the client filter, cross-chain queries none |
| Supervisor.CollectedEvents.constructor | crates/relayer/src/supervisor.rs:885-915 | nothing is collected at first |
| Supervisor.CollectedEvents.CollectEvent | crates/relayer/src/supervisor.rs:386-403 | an enabled, resolved event is appended to the queue of its object and nothing else changes |
| Supervisor.CollectedEvents.Collect | crates/relayer/src/supervisor.rs:405-562 | one event is pushed to exactly its targets, which `TargetsExactly` describes from the side of the objects; a new block replaces the remembered one |
| Supervisor.CollectEvents | crates/relayer/src/supervisor.rs:405-562 | the collected map is exactly the non-empty filter queues, and the remembered block is the last one of the batch |
| Supervisor.DeliveredExactlyOnce | crates/relayer/src/supervisor.rs:719-785 | in any visiting order, a permitted object gets its whole queue once and a denied one nothing |
| Supervisor.DeliveredFromQueues | crates/relayer/src/supervisor.rs:719-785 | every delivery is the whole queue of a visited, permitted object |
| Supervisor.Supervisor.GetOrSpawn | crates/relayer/src/supervisor.rs:719-785 | a running chain is reused and another one has to be spawned; failing leaves the running ones alone |
| Supervisor.Supervisor.Deliver | crates/relayer/src/supervisor.rs:719-785 | the object gets a worker and its events if and only if both its chains run or can be spawned; otherwise neither workers nor deliveries change |
| Supervisor.Supervisor.DeliverAll | crates/relayer/src/supervisor.rs:719-785 | the deliveries are those of a duplicate-free visit of all objects, or on an error of exactly the objects visited before the failing one, which cannot be served; exactly the permitted visited objects have a worker, and only spawnable chains were started |
| Supervisor.Supervisor.ProcessBatch | crates/relayer/src/supervisor.rs:719-785 | the last new block is announced first, then the filter queues of the batch are delivered, or exactly a prefix of them on an error |
| Mmr.SizeStep | crates/relayer-storage/src/prelude.rs:61-70 | a push occupies exactly the positions between two consecutive sizes |
| Mmr.FullMountain | crates/relayer-storage/src/prelude.rs:61-70 | two to the power of k leaves make one mountain of 2 * 2^k - 1 positions, the last leaf completing k parents |
| Mmr.NodeStandsForItsLeaves | crates/relayer-storage/src/prelude.rs:61-70 | a node of height h stands for the 2^h leaves that end with its last one, in order |
| Mmr.ShownByPosition | crates/relayer-storage/src/prelude.rs:61-70 | showing every node of the chain is showing, at exactly the positions below the size, the digest of the one node that owns each |
| Mmr.ClimbIsReference | crates/relayer-storage/src/storage/mmr.rs:14-21 | a push that reads its left children from the store writes the digests defined on the leaves alone |
| Mmr.PushAll | crates/relayer/src/chain/ckb/utils.rs:54-85 | pushing a batch on a handle that shows a chain succeeds and shows the longer chain |
| Mmr.CommitHolds | crates/relayer-storage/src/storage/mmr.rs:28-36 | committing pending digests makes the store hold what the handle showed, over any leftovers |
| Mmr.PrefixHolds | crates/relayer-storage/src/prelude.rs:42-70 | a store that holds a chain holds every prefix of it, so digests above the tip are not visible |
| Mmr.WrittenHolds | crates/relayer-storage/src/storage/mmr.rs:28-36 | whatever part of a batch was written, the kept leaves are still held, and the new ones on top of them if all of it was |
| Storage.Database.constructor | crates/relayer-storage/src/prelude.rs:37-40 | a new database is valid and empty |
| Storage.Database.GetBase | crates/relayer-storage/src/storage/reader.rs:15-37 | the answer equals the database value and the cache stays coherent; it fails exactly when an uncached read fails |
| Storage.Database.PutBase | crates/relayer-storage/src/storage/writer.rs:15-25 | database and cache change together, or neither on a failure |
| Storage.Database.DeleteBase | crates/relayer-storage/src/storage/writer.rs:32-41 | the base is gone from database and cache, or neither on a failure |
| Storage.Database.Append | crates/relayer-storage/src/storage/mmr.rs:28-36 | the elements, or exactly those before a failure, are at consecutive positions and no other position changes |
| Storage.Database.ChainRootMmr | crates/relayer-storage/src/prelude.rs:61-70 | the size follows from the distance to the base; for a stored slot exactly the positions of the headers up to it can be read, each with its digest; a slot below the base underflows |
| Storage.Database.InitializeWith | crates/relayer-storage/src/prelude.rs:52-58 | whatever digests the database held, afterwards it holds exactly the one header from its slot on; a failure leaves nothing, or a base without headers; the tip is untouched |
| Storage.Database.Extend | crates/relayer/src/chain/ckb/utils.rs:76-85 | after pushing on a stored slot the headers up to it and the new ones are held, or those up to it if a write failed; beyond the stored slots nothing is lost; the tip moves only on success |
| Storage.Database.CommitHeaders | crates/relayer/src/chain/ckb/utils.rs:54-85 | for every log, slot and failing database access: the log after the commit, whether it went through or not, and when it must go through or fail |
| Storage.FailuresLoseNothingBelow | crates/relayer/src/chain/ckb/utils.rs:54-85 | whatever fails, a commit keeps base, tip and the headers below its first slot, or on an empty storage leaves a beginning of its headers |
| Storage.Database.RollbackTo | crates/relayer-storage/src/prelude.rs:42-50 | no digest is removed: a successful rollback to any slot moves the tip alone, one to nothing ends without base, tip and cached base, and a failing write leaves exactly what was done before it |
| Storage.Database.RollbackAboveTip | crates/relayer-storage/src/prelude.rs:42-70 | a rollback to a slot above the tip shows the headers left behind again |
| Storage.Database.CommitAboveTip | crates/relayer/src/chain/ckb/utils.rs:54-85 | a commit that leaves a gap above the tip makes the headers left behind in the gap part of the chain again |
| Storage.Database.Perform | crates/relayer-storage/src/prelude.rs:37-70 | any sequence of commits and rollbacks, whatever slots they name and however the database fails, leaves the log the description gives for their outcomes, held by the database, with the cache coherent |
| Storage.VisibleIsCurrent | crates/relayer-storage/src/prelude.rs:37-70 | over every sequence of operations that continue the current chain or go back to one of its slots, the stored headers up to the tip are exactly those of the current chain, whatever longer chains left behind, and an empty storage has no tip |
| Storage.InterruptedInitializationIsStuck | crates/relayer-storage/src/prelude.rs:52-58 | after a failure between base and first digest no retry of the same headers succeeds or changes anything |
| Backlog.BacklogIsBounded | crates/telemetry/src/state.rs:657-786 | after any operations the backlog has at most 901 entries, holds only outstanding packets with their last timestamps, and holds all of them if no insertion found more than 900 |
| Backlog.InsertedKeys | crates/telemetry/src/state.rs:657-733 | an insertion adds its packet with its timestamp, keeps every other entry, and drops at most the oldest one, exactly above the threshold |
| Backlog.Telemetry.Oldest | crates/telemetry/src/state.rs:657-733 | the smallest key, or none exactly for an empty backlog |
| Backlog.Telemetry.Publish | crates/telemetry/src/state.rs:739-786 | the gauges of a path become its oldest packet, that packet's timestamp and the size, or zeros; other paths keep theirs |
| Backlog.Telemetry.BacklogInsert | crates/telemetry/src/state.rs:657-733 | the oldest packet is dropped only above the threshold, the new one is added, other paths are untouched and all gauges describe their backlogs |
| Backlog.Telemetry.BacklogRemove | crates/telemetry/src/state.rs:739-786 | the packet is gone and all gauges describe their backlogs; for an unknown path or packet not even a gauge changes |
| Backlog.Telemetry.Replay | crates/telemetry/src/state.rs:657-786 | any operations on a new path give the specified backlog with gauges that describe it, and leave the other paths alone |
| EndCache.Cache.constructor | crates/relayer/src/cache.rs:18-26 | a new cache is empty and has the time to live of its kind |
| EndCache.Cache.GetOrTryInsert | crates/relayer/src/cache.rs:94-136 | a hit was open on chain within the time to live, and equals what the chain stores now where open ends are final; only open ends are inserted |
| EndCache.CacheRun | crates/relayer/src/cache.rs:94-136 | the same for every access of every run with evictions and failing fetches |
| Links.CheckCounterparty | crates/relayer/src/chain/counterparty.rs:324-370 | the check passes if and only if the end exists and names exactly the expected end |
| Links.BuiltExactly | crates/relayer/src/link.rs:52-173 | a link is built if and only if the end is open or closed, its counterparty names it back, and its connection is open and knows its counterparty |
| Links.FailsOnFirstUnmetCheck | crates/relayer/src/link.rs:95-155 | each failure tells the first check that is not met; a missing remote connection panics |
| Links.SidesAreStored | crates/relayer/src/link.rs:133-155 | on mutually bound chains, each side carries the chain, client, connection, port and channel its own chain stores, with that chain's ordering and delay |
| Links.ReverseSwaps | crates/relayer/src/link.rs:177-198 | on mutually bound chains a link can be reversed if and only if the far end is open or closed on an open connection, and the reverse is the link with its sides swapped and the same ordering and delay |
| Links.ReverseTwice | crates/relayer/src/link.rs:52-198 | reversing twice gives the original link |

## Left out

- Command line, configuration, keyring, REST and telemetry servers, chain registry, e2e tools: input and output only.
- Protobuf and JSON conversions of client states, headers and events: thin wrappers over encoders outside the repository.
- Version negotiation by the chain handlers: the created end keeps the versions of the message.
- The legacy `previous_channel_id` and `previous_connection_id`: Try always allocates a new identifier.
- Retry timing: the passes of a run are given, in any number.
- Light-client verification: a proof is a version the end had; proof heights are not modelled.
- The search of `restore_from_state` for an answering end: `RestoredIsSane` covers whatever it finds.
- Closing handshakes: workers send and abort for closed ends, but nothing is proved about their completion.
- WorkersNeverDeadlock: workers stop only by aborting; one that gives up after its retries is not modelled, nor is the delivery of the events that wake workers.
- DriverTraceIsWorkerTrace: messages are compared by kind and side, and through the chains they lead to; a worker's datagram is fixed only in the ends it names.
- TryTakesTheSourceAttribute: assumes that the proof still shows Init, as the handler demands.
- FinishesOnFifthPass: assumes that the chains allocate unused identifiers.
- FinishesWhenLeftAlone: assumes the same, and that an end created by another relayer has the terms this one checks.
- Axon and Ckb4Ibc sources of client updates: they return early with no messages.
- Expiry of Ethereum clients: the source leaves it unimplemented.
- WaitForHeaderValidationDelay: the answers are a finite list, and a wait that outlasts it is reported as still waiting; sleeping is not modelled.
- NeverExpires: assumes that updates succeed and install a header no older than their start.
- The resolution of an event to an object, the channel filter and the client filter: arbitrary functions.
- Supervisor.Supervisor.ProcessBatch: order among objects is arbitrary, as that of the hash map it iterates over.
- Merkle hashing and the bagging of peaks into a root: digests are free terms, and what is proved is which digests are stored and read.
- CommitHeaders: for a batch beyond the stored slots it is not said when it fails, and after it goes through nothing about the slots beyond.
- Perform: failing reads of digests and of the base are modelled once per operation.
- PassSane: the mismatch panic is the only one modelled; indexing an empty version list in the connection builders is excluded by the type of the version lists.
- Overlapping calls to the storage and to the telemetry maps: calls are taken one after the other.
- The client-state and latest-height caches, and the capacity policy of the caches: entries may be evicted at any time.
- Payee registration, signers, logging and sleeps.
