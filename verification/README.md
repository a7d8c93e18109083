# dstate: a verified model of the replication protocol

dstate replicates one state per node to every other node of a cluster. The owner stamps each
version of its state with a generation (incarnation, age), ordered lexicographically, and
publishes a *view* of it; the other nodes keep the newest view they have accepted. This
project models one node's engine, the network between engines, the mock cluster that drives
them tick by tick, and a node's restarts, and proves what the protocol keeps.

## How it is built

- `Types`, `ShardSpec`, `DiagnosticsSpec` and `EngineSpec` say on values what one engine does:
  every operation maps an engine to the next engine and to at most one action.
- `ViewMap`, `ShardCore`, `Lifecycle`, `Diagnostics`, `ChangeFeed`, `Engine` and `Transport` are
  the classes that update their fields in place, each verified against those functions.
- `Cluster` is the system: nodes, a network that may lose, repeat, delay and reorder packets,
  and a record of what each owner published. `Agreement`, `RestartSafety`, `Convergence` and
  `History` prove what holds over all its runs.
- `MockCluster`, with `Tracking`, `Deadlines`, `Rounds` and `Memberships`, is the simulated
  cluster with its ticks, timers and feed intervals. A ghost record makes it at every moment
  the last state of a run of `Cluster`.
- `MutationLaws` and `InboundLaws` say, without the helper functions of `EngineSpec`, what a
  mutation and an inbound message do, and what that adds up to over runs; `StalenessRuns` says
  what queries report and pull, `FeedRuns` how lazy pull works from end to end, `NewLives` and
  `Migrations` what starts make of the clock and of the store.
- `EngineRuns`, `SnapshotJoin`, `TwoPhase`, `Startup`, `OverlappingReads`, `TransportRuns` and
  `DeltaWitness` are about runs of one component.

Some invariants are stated behind `Inside(topic, k)` (see `Types`): proofs that only pass an
invariant on then need not unfold it.

## Hypotheses

- **Codecs** (`Cluster.Speaks`, `Convergence.RoundTrips`): bytes of one wire version mean one
  view to every node that can read them, and what an owner serializes reads back as its view.
  Inside the transport, encoding a message and decoding it gives the message (`Transports.Sound`).
- **Delta law** (`Cluster.DeltaLaw`): the delta an owner serializes turns its previous view into
  its new one. `DeltaWitness` proves when the repository's own test state meets it.
- **Fresh incarnations** (`Cluster.NewLife`): a new life of a node has an incarnation of at
  least 1 that is above every incarnation it has published under.
- **No overflow** of age, incarnation or counters: they are unbounded naturals here.
- **One release** (`Convergence.OneRelease`): for convergence every node was built with the same
  state name, wire version and codec. Agreement and restart safety need no such thing.
- **One projection** for all mutations of a state (`Startup.Allowed`), as its type fixes it.
- **Honest interceptors** (`Transports.Honest`): an interceptor may lose, delay, repeat and
  damage messages, but damaged bytes do not decode to a different message.
- Each operation reads the clock once; time is a monotonic instant and Unix milliseconds.

## What was found

- **A restored start can go down.** When a start cannot load the store it begins afresh at the
  clock's incarnation without saving; if the node crashes before its first save, the next
  start restores the old, lower generation (`Startup.FallbackThenRestoreGoesDown`).
- **Interleaved saves can split a generation.** Two mutations prepared from one base carry the
  same new generation; if the first is committed and the second is what the store keeps, a
  restart shows the generation with the second view (`Startup.SplitHappens`). The code guards
  a commit by its base alone; `Startup.CommitSurvivesIff` gives the exact condition under which
  a commit survives a crash, and `Startup.PublishedSoundlyIff` the exact condition over runs.
- **A forged own snapshot makes the own entry go down** at the next mutation, if it was more
  than one age ahead, also under a reader (`OverlappingReads.ForgedSnapshotGoesDown`).
- **An old life can remove the view of a new one** when its late message is written in a wire
  version the receiver does not know and the policy is to drop and wait: the generation is
  never compared (`RestartSafety.OldLifeIgnored` gives the exact condition).
- **Notices out of order lower a marker**, after which a view can look fresh although a newer
  generation was announced (`EngineRuns.MarkKeepsExact`, `EngineRuns.OutOfOrderLooksFresh`).
- **A message that names the receiver as its source** replaces the receiver's own entry when it
  is newer (`EngineRuns.OwnEntryHeld` says exactly when the own entry survives); with messages
  from real owners it cannot happen (`Agreement.AgreementAlways`).
- **The test state's delta overflows**, in a build with overflow checks, when its counter crosses
  the middle of its range, although both values fit (`DeltaWitness.DeltaLawIff`); in a build
  that wraps, the casts undo each other (`DeltaWitness.WrappingMeetsDeltaLaw`).
- The design document's table (docs/distributed-state-design.md:2771) gives the wall clock as the
  incarnation after a failed migration; the code takes the larger of the clock and the loaded
  incarnation plus one. The model follows the code.

## Model

| member | source | states |
|---|---|---|
| Agreement.AgreementAlways | dstate/src/engine.rs:715-915 | in every reachable cluster state each entry is the join placeholder or exactly the view its owner published at that generation, own entries carry the owned generation and view, and every message still to arrive is equally truthful, whatever the network, restarts and membership do |
| Agreement.AgreeStep | dstate/src/engine.rs:324-383 | every single step of the cluster keeps agreement |
| Agreement.DeltaKeepsGood | dstate/src/engine.rs:789-887 | applying a truthful delta to a truthful entry gives a truthful entry: the exact-successor check is what makes the delta law applicable |
| Agreement.SnapshotKeepsGood | dstate/src/engine.rs:715-787 | accepting, discarding or failing to read a truthful snapshot keeps the engine truthful |
| Agreement.MutationPublishes | dstate/src/engine.rs:257-313 | a mutation publishes a generation never used before, and what it sends pairs that generation with its view or with the delta to it |
| Agreement.AdvancePublishes | dstate/src/core/shard_core.rs:253-274 | the next generation of an owner is unpublished, positive, and above all it has published |
| RestartSafety.NeverDecreases | dstate/src/core/shard_core.rs:433-542 | over any run, while an entry exists its generation never goes down and no generation changes its view |
| RestartSafety.StepNeverDecreases | dstate/src/core/shard_core.rs:433-611 | while the own entry is in step, which agreement gives in every run, no engine event makes an entry older |
| RestartSafety.OldLifeIgnored | dstate/src/engine.rs:324-383 | a snapshot, delta or feed notice of an older life leaves a newer life's entry untouched if and only if it does not hit the drop-on-mismatch branch |
| RestartSafety.OldLifeCanDropNewView | dstate/src/engine.rs:727-745 | that branch is reachable: a late old message in an old wire version removes the new life's view |
| Convergence.Converges | dstate/src/engine.rs:605-915 | in every quiescent state of any run, each reader that was sent its owner's current generation, with nothing that concerns the pair lost since, shows that generation and the owner's view; losses, crashes and leaves before that do not matter |
| Convergence.DueAlways | dstate/src/engine.rs:605-915 | the invariant: each such reader is caught up, or a current snapshot, delta, scheduled send or snapshot request is still pending between two nodes that accept each other |
| Convergence.CurrentArrives | dstate/src/engine.rs:715-887 | the current snapshot or delta brings its reader up to date or makes it ask for a snapshot |
| Convergence.RequestAnswered | dstate/src/engine.rs:889-915 | a snapshot request is answered with the owner's current snapshot |
| Convergence.PushIsCurrent | dstate/src/engine.rs:606-713 | whatever an engine pushes on its own account carries its current generation |
| Convergence.CaughtUpStays | dstate/src/core/shard_core.rs:433-466 | a reader that is caught up stays so until its owner mutates, or a crash or leave cuts them off |
| History.QuiescentMeansConverged | dstate-integration/src/cluster.rs:267-281 | at the end of any simulated run that is quiet, every pair that is owed is up to date |
| History.ReachedAgrees | dstate-integration/src/cluster.rs:173-244 | agreement holds of every state a simulated run reaches |
| Deadlines.AnswersRankLower | dstate/src/engine.rs:324-365 | every handler answers with at most one message, to one node, of a strictly lower rank: delta, request, snapshot |
| Deadlines.DueBy | dstate-integration/src/transport.rs:97-127 | what a tick delivers and what it leaves in the queue keep every deadline |
| Deadlines.SentBy | dstate-integration/src/transport.rs:163-192 | what is sent during a tick without interceptors is over by the limit |
| Deadlines.LaterBy | dstate-integration/src/cluster.rs:191-214 | firing the due timers and keeping the others keeps every deadline |
| Rounds.HandleAll | dstate-integration/src/cluster.rs:174-189 | handling all delivered messages is a run of the cluster model; the collected replies are targeted, in time, and touch nothing but views |
| Rounds.HandleNext | dstate-integration/src/cluster.rs:178-185 | one delivery to a present or absent node is one step of the cluster model |
| Rounds.SplitTimers | dstate-integration/src/cluster.rs:195-204 | a node's timers are partitioned by whether they are due at the tick |
| Rounds.FireStands | dstate-integration/src/cluster.rs:206-213 | broadcasting a due timer's message is one step of the cluster model |
| Rounds.FlushStands | dstate-integration/src/cluster.rs:219-234 | flushing a feed is one step of the cluster model |
| Rounds.FeedIsTimely | dstate-integration/src/cluster.rs:216-234 | the feed counters keep every feed's deadline over a tick |
| Rounds.FiringIsTimely | dstate-integration/src/cluster.rs:191-214 | the timer phase keeps every timer's deadline |
| Rounds.LimitIsQuiet | dstate-integration/src/cluster.rs:267-281 | once the limit is reached nothing is in flight, scheduled or waiting in a feed |
| Rounds.WithinIsBy | dstate-integration/src/cluster.rs:251-264 | delays up to d and feed intervals up to f put everything's deadline at max(d + 4, f + 1) ticks |
| Rounds.QuietIsInSync | dstate-integration/src/cluster.rs:267-281 | a settled cluster shows, for every pair that is owed, the owner's generation and view |
| Rounds.ShownIsPublished | dstate-integration/src/cluster.rs:173-244 | whatever interceptors, removals and restarts have done, a node of the mock cluster shows of another a placeholder or what was published |
| Memberships.LocalStands | dstate/src/engine.rs:405-436 | a mutation, join or leave at a node is one step of the cluster model, with who is owed what afterwards |
| Memberships.MutationStands | dstate-integration/src/cluster.rs:284-299 | a mutation with its action still to be routed, and its timer set, is one step of the cluster model |
| Memberships.WelcomeAll | dstate-integration/src/cluster.rs:103-115 | every existing node hears of the newcomer and owes it its snapshot |
| Memberships.GreetAll | dstate-integration/src/cluster.rs:134-143 | the newcomer hears of every existing node and owes each its snapshot |
| Memberships.ForgetAll | dstate-integration/src/cluster.rs:155-171 | every remaining node has forgotten the removed one |
| MockClusters.MockCluster.constructor | dstate-integration/src/cluster.rs:78-87 | a new cluster is empty and is the start of a run |
| MockClusters.MockCluster.AddNode | dstate-integration/src/cluster.rs:93-153 | both sides have heard of each other, the feed interval reaches the batch interval and no further, and unless an interceptor loses messages all pairs with the newcomer are owed |
| MockClusters.MockCluster.RemoveNode | dstate-integration/src/cluster.rs:155-160 | the node is gone, the others have forgotten it, and all that is owed between them stays owed |
| MockClusters.MockCluster.RemoveNodeHard | dstate-integration/src/cluster.rs:164-170 | the same, and exactly the node's packets have left the queue |
| MockClusters.MockCluster.Mutate | dstate-integration/src/cluster.rs:284-299 | the node's engine has mutated; only what is pushed at once enters the queue; a delayed send is one timer with the new snapshot, for the first tick that its delay allows; and a push owes all nodes that accept the owner |
| MockClusters.MockCluster.MutateWithDelta | dstate/src/engine.rs:280-313 | the same with a delta that keeps the delta law; a delayed send is one timer with the delta |
| MockClusters.MockCluster.Route | dstate-integration/src/cluster.rs:355-386 | broadcasts and targeted sends reach the queue; a delayed send leaves the queue alone and is one timer more, whose ticks reach its delay and no further |
| MockClusters.MockCluster.Tick | dstate-integration/src/cluster.rs:173-244 | one tick is a run of the cluster model, keeps all owned states, moves both clocks on, takes away exactly the timers whose tick has come, keeps every debt unless an interceptor loses messages, and without interceptors keeps every deadline |
| MockClusters.MockCluster.DeliverPhase | dstate-integration/src/cluster.rs:174-189 | deliveries and the routing of their replies keep the deadlines |
| MockClusters.MockCluster.TimerPhase | dstate-integration/src/cluster.rs:191-214 | exactly the due timers of every node have fired, and all that can be read from what the queue has gained is their messages |
| MockClusters.MockCluster.FeedPhase | dstate-integration/src/cluster.rs:216-234 | every node's feed has been counted, flushed or left alone |
| MockClusters.MockCluster.FireDue | dstate-integration/src/cluster.rs:193-214 | one node's due timers are broadcast and its others kept, and the queue gains nothing else |
| MockClusters.MockCluster.TickFeed | dstate-integration/src/cluster.rs:219-234 | an empty feed resets the counter, a full interval flushes, anything else counts |
| MockClusters.MockCluster.IsSettled | dstate-integration/src/cluster.rs:267-281 | true exactly when nothing is in flight, scheduled or waiting in a feed |
| MockClusters.MockCluster.SettleWithLimit | dstate-integration/src/cluster.rs:251-264 | without interceptors settling takes at most max(d + 4, f + 1) ticks; it succeeds exactly when the cluster is settled, and then every pair that is still owed is in sync, whatever happened before; only an interceptor that loses messages takes pairs off the books; no timer is gone before its tick has passed |
| MockClusters.MockCluster.TickUntilSettled | dstate-integration/src/cluster.rs:253-263 | the loop stops when settled or when the ticks are used up, and before any limit by which everything pending is over; over all its ticks no timer is gone before its own |
| Memberships.DelayIsCovered | dstate-integration/src/cluster.rs:367-381 | the ticks of a delay reach it, with less than a tick to spare |
| Memberships.IntervalIsCovered | dstate-integration/src/cluster.rs:93-153 | the same of a feed interval, which is one tick at least |
| Rounds.OneTickMore | dstate-integration/src/cluster.rs:191-214 | tick after tick, a timer is gone only once its tick has passed |
| Rounds.FeedWaits | dstate-integration/src/cluster.rs:216-238 | a feed with something in it is drained when its interval is over, and not before |
| Rounds.IdleDoesNotCount | dstate-integration/src/cluster.rs:216-238 | ticks with an empty feed do not count towards the interval |
| Transports.Transport.ApplyInterceptors | dstate-integration/src/transport.rs:217-257 | each interceptor sees each pending copy once; a delayed copy skips the later ones and no other copy is lost with it |
| Transports.Transport.SendBytes | dstate-integration/src/transport.rs:163-210 | every action's copies enter the queue with latency one plus the extra delay |
| Transports.Transport.Send | dstate-integration/src/transport.rs:78-81 | with honest interceptors nothing but the message can be read from the copies; if none of them loses messages it can be read; with none there is exactly one copy, due next tick |
| Transports.Transport.Broadcast | dstate-integration/src/transport.rs:84-91 | the same for every node but the sender |
| Transports.Transport.DeliverDue | dstate-integration/src/transport.rs:97-127 | hands out what is due in queue order, readable and damaged apart, and keeps the rest in order |
| Transports.Transport.DropInFlightFor | dstate-integration/src/transport.rs:156-159 | removes exactly the messages from or to the node |
| Transports.ChainIsGenuine | dstate-integration/src/transport.rs:230-251 | honest interceptors in any number are honest together |
| Transports.ChainKeeps | dstate-integration/src/transport.rs:230-251 | if no interceptor loses messages, every pending copy leaves the chain in some form, at once or delayed |
| InterceptorPaths.ChainIsPaths | dstate-integration/src/transport.rs:212-258 | for interceptors that ignore the position of a copy, what comes out of the chain is what comes out of each pending copy followed on its own: a drop ends it, a delay skips the rest of the chain, the rest goes on copy by copy |
| TransportRuns.Conservation | dstate-integration/src/transport.rs:97-259 | over any run of sends, deliveries, ticks and purges every copy is in exactly one of in flight, delivered, undecodable, purged |
| TransportRuns.CopiesAreStamped | dstate-integration/src/transport.rs:175-208 | a copy queued at tick t with extra delay d is stamped t + 1 + d |
| TransportRuns.OnTime | dstate-integration/src/transport.rs:97-132 | no copy is ever handed out early; a host that delivers before each tick hands each out at exactly its tick and leaves nothing overdue |
| TransportRuns.LinksAreFifo | dstate-integration/src/transport.rs:97-181 | without interceptors each link is first in, first out, also across purges of other nodes |
| DistributedEngine.DistributedStateEngine.constructor | dstate/src/engine.rs:200-247 | a new engine's incarnation is the wall clock and it holds its own entry only (`NewLives.NewEngineIs` says so field by field) |
| DistributedEngine.DistributedStateEngine.MutateState | dstate/src/engine.rs:257-275 | the whole engine and the action list are those of the value function for mutations, which `MutationLaws.SnapshotRows` pins down |
| DistributedEngine.DistributedStateEngine.MutateStateWithDelta | dstate/src/engine.rs:280-313 | the same with a delta, which `MutationLaws.DeltaRows` pins down |
| DistributedEngine.DistributedStateEngine.SendSnapshotAs | dstate/src/engine.rs:606-653 | the action, the counters and the feed for each of the five sync decisions without a delta, as `MutationLaws.FeedRow` and the matrix say |
| DistributedEngine.DistributedStateEngine.SendDeltaAs | dstate/src/engine.rs:655-713 | the same with a delta |
| DistributedEngine.DistributedStateEngine.HandleFullSnapshot | dstate/src/engine.rs:715-787 | name and departure gates, version mismatch, malformed data, acceptance and discarding, with their counters |
| DistributedEngine.DistributedStateEngine.HandleDeltaUpdate | dstate/src/engine.rs:789-887 | the two-layer delta check equals one ordering specification, whose verdicts and effects are those of `InboundLaws`; the later gap, discard and unknown-peer arms are unreachable |
| DistributedEngine.DistributedStateEngine.ApplySuccessor | dstate/src/engine.rs:845-886 | once the pre-check has passed, the delta is applied to the same base view, or the applier fails and a snapshot is requested |
| DistributedEngine.DistributedStateEngine.StoreSuccessor | dstate/src/engine.rs:863-886 | the shard's second check always agrees with the first: gap, discard and unknown peer are dead ends |
| DistributedEngine.DistributedStateEngine.HandleRequestSnapshot | dstate/src/engine.rs:889-915 | a request from an accepted requester is answered with the own snapshot |
| DistributedEngine.DistributedStateEngine.HandleInboundChangeFeed | dstate/src/engine.rs:369-383 | own batches are ignored, the other notices mark in order |
| DistributedEngine.DistributedStateEngine.HandleWireMessage | dstate/src/engine.rs:324-365 | every wire message does what the value function says |
| DistributedEngine.DistributedStateEngine.FlushChangeFeed | dstate/src/engine.rs:391-393 | the feed is drained into a batch that lists it |
| DistributedEngine.DistributedStateEngine.OnNodeJoined | dstate/src/engine.rs:405-428 | the departed mark is cleared, a placeholder is inserted if absent, and the own snapshot goes to the newcomer |
| DistributedEngine.DistributedStateEngine.OnNodeLeft | dstate/src/engine.rs:434-436 | entry and diagnostics of the node are removed and it is marked departed, except for the own entry |
| DistributedEngine.DistributedStateEngine.RunPeriodicSync | dstate/src/engine.rs:498-512 | a full snapshot is broadcast exactly when periodic sync is configured |
| DistributedEngine.DistributedStateEngine.QueryViews | dstate/src/engine.rs:451-490 | the answer is the projection of the whole view map; it reports exactly the peers that are marked or were synced longer ago than allowed; with pulling enabled exactly those of them that have not departed are asked, once each |
| MutationLaws.MutationMovesOn | dstate/src/core/shard_core.rs:253-311 | a mutation makes the next age with the new value, and the own entry shows the new view with the same times |
| MutationLaws.SnapshotRows | dstate/src/core/sync_logic.rs:58-71 | the decision matrix without a delta: an immediate mutation, or a default one with active push, broadcasts the new view; a delayed one schedules it; a suppressed one, or a default one without a push mode, sends nothing and tells the feed nothing; a default one with lazy pull sends nothing |
| MutationLaws.DeltaRows | dstate/src/engine.rs:655-713 | the matrix with a delta: a broadcast carries the delta exactly if the state supports deltas, a delayed send always does |
| MutationLaws.FeedRow | dstate/src/engine.rs:625-631 | a mutation that is left to the feed announces its own generation there |
| MutationLaws.FeedHoldsNewest | dstate/src/core/change_feed_logic.rs:92-131 | over any run the feed holds exactly the generation of the last mutation left to it since the last flush |
| FeedRuns.NoticesAreTrue | dstate/src/engine.rs:369-393 | in every state of every cluster run all feeds, notices on the network and markers name generations that their owners have published |
| FeedRuns.FlushListsInRun | dstate/src/engine.rs:391-393 | a flush lists what is announced and sends it to every other node |
| FeedRuns.FeedReachesReader | dstate/src/core/shard_core.rs:556-567 | from a mutation that is left to the feed, over the next flush, to the delivery of its batch: the reader reports the owner as stale to every query, and pulls it |
| FeedRuns.LazyPullConverges | dstate/src/engine.rs:451-490 | and after such a query, with nothing lost, every quiescent state has the reader at the current generation and view of the owner, not below that of the mutation |
| InboundLaws.OthersChangeNothing | dstate/src/engine.rs:715-887 | only accepted messages change an entry, and only unknown versions drop one |
| InboundLaws.AcceptedSnapshotIsShown | dstate/src/core/shard_core.rs:433-466 | an accepted snapshot is shown in full, as synced now |
| InboundLaws.AcceptedDeltaIsShown | dstate/src/core/shard_core.rs:517-542 | an accepted delta is the exact successor; its view is shown as synced now, with the old creation time |
| InboundLaws.AcceptedIsFresh | dstate/src/core/shard_core.rs:628-656 | a peer whose message was accepted, and has reached what was announced, is not stale for as long as the query allows |
| InboundLaws.WhoIsAsked | dstate/src/engine.rs:810-886 | a delta is answered with a snapshot request exactly if there is nothing to apply it to, something is missing in between, or applying it fails |
| InboundLaws.RequestsAreAnswered | dstate/src/engine.rs:889-915 | a request is answered exactly if it is about this state and its sender has not departed |
| InboundLaws.VerdictCounts | dstate/src/core/diagnostics.rs:205-255 | each verdict on a message moves its own counters and no others |
| InboundLaws.VerdictTracks | dstate/src/core/diagnostics.rs:162-203 | a message that cannot be read or applied is a failure of its source, an accepted one ends its failures, a gap is counted, and other peers are left alone |
| InboundLaws.FailuresAreCounted | dstate/src/core/diagnostics.rs:162-196 | over any run the failure count of a peer is the number of its messages that failed since the last accepted one or its leave; it is failing exactly if it is shown and that is positive |
| InboundLaws.FailuresAddUp | dstate/src/core/diagnostics.rs:180-196 | n failures in a row add n |
| InboundLaws.CountersAreVerdicts | dstate/src/core/diagnostics.rs:205-255 | over any run the inbound counters are the numbers of messages that met each verdict |
| StalenessRuns.PulledIs | dstate/src/engine.rs:465-481 | a query that pulls asks every peer that it reports and that has not departed, and nobody else |
| StalenessRuns.UntouchedIsReported | dstate/src/core/view_map.rs:163-181 | over any run, an entry that nothing has renewed for longer than a query allows is reported, and pulled |
| StalenessRuns.ReportedOnceTooOld | dstate/src/core/view_map.rs:163-181 | after an accepted message, and until there is news, a query reports the peer exactly if the acceptance lies too far back |
| StalenessRuns.JoinShows | dstate/src/engine.rs:405-428 | a join in full: mark cleared, placeholder below every real generation, own snapshot to the newcomer |
| StalenessRuns.LeaveForgets | dstate/src/engine.rs:434-436 | a leave in full: marked departed, with entry and diagnostics gone |
| StalenessRuns.NewcomerIsPulled | dstate/src/core/shard_core.rs:580-601 | over any run, a newcomer is reported and pulled until something of it is accepted |
| StalenessRuns.PeriodicSends | dstate/src/engine.rs:498-512 | a periodic send happens exactly if it is configured, and carries the whole own view |
| NewLives.NewEngineIs | dstate/src/engine.rs:200-247 | a new engine field by field: its state at the clock's incarnation, and its own entry only |
| NewLives.AgeCountsMutations | dstate/src/core/shard_core.rs:253-311 | over any run the incarnation stays and the age counts the mutations |
| NewLives.LaterEngineIsNewer | dstate/src/engine.rs:215 | an engine built when the clock reads more is newer than everything an earlier life ever reaches |
| NewLives.NewEngineIsNewLifeIff | dstate/src/engine.rs:200-247 | a new engine is a new life, as all theorems on runs ask, if and only if the clock is positive and ahead of what the node has published |
| EngineRuns.NoGhostsEver | dstate/src/core/lifecycle_logic.rs:89-130 | in every run a departed node has no entry, except possibly the local node |
| EngineRuns.GoneUntilRejoin | dstate/src/engine.rs:715-915 | between a leave and the next join no engine event recreates the node's entry or targets it |
| EngineRuns.OwnEntryHeld | dstate/src/engine.rs:587-593 | an inbound message keeps the own entry's generation and view if and only if it is not a forged newer message from the node itself |
| EngineRuns.OtherEventsHoldOwnEntry | dstate/src/core/shard_core.rs:606-675 | after any other event the own entry exists and carries the owned generation |
| EngineRuns.MarkersAlwaysAbove | dstate/src/core/shard_core.rs:446-567 | in every run a pending marker is strictly above its entry's generation |
| EngineRuns.MarkKeepsExact | dstate/src/core/shard_core.rs:556-567 | a notice keeps the marker at the highest announcement if and only if it is not an out-of-order one between the view and the highest |
| EngineRuns.FreshMeansCaughtUp | dstate/src/core/shard_core.rs:628-656 | with notices in order, an entry that a query does not report stale is caught up with everything announced |
| EngineRuns.OutOfOrderLooksFresh | dstate/src/core/shard_core.rs:556-567 | on every engine that shows the peer, a high notice, a low notice and the low snapshot leave a view that no query reports or pulls, although the high generation was announced |
| EngineRuns.Accounting | dstate/src/engine.rs:606-713 | over any run mutations, joins, answered requests and periodic sends equal snapshots, deltas, suppressions and feed notices |
| EngineRuns.StepAccounts | dstate/src/core/diagnostics.rs:205-255 | each event changes the balance of the counters by exactly what it owes |
| DiagnosticsLogics.DiagnosticsLogic.Health | dstate/src/core/diagnostics.rs:311-373 | the counts are those of the peers that are marked or were synced longer ago than allowed, of those with failures in a row, and of the rest; they partition the peers; Degraded exactly when a strict majority is healthy |
| DiagnosticsLogics.DiagnosticsLogic.CountPeers | dstate/src/core/diagnostics.rs:320-356 | the loop's four counters are the sizes of the sets they name |
| DiagnosticsLogics.Partition | dstate/src/core/diagnostics.rs:340-372 | healthy peers and unhealthy ones are all peers, and nobody is unhealthy only if nobody is stale or failing |
| DiagnosticsLogics.DiagnosticsLogic.RecordSyncSuccess | dstate/src/core/diagnostics.rs:162-178 | a success resets the peer's failures |
| DiagnosticsLogics.DiagnosticsLogic.RecordSyncFailure | dstate/src/core/diagnostics.rs:180-196 | a failure is counted for the peer, and in all (`InboundLaws.FailuresAreCounted` says over runs) |
| LifecycleLogics.LifecycleLogic.OnNodeJoined | dstate/src/core/lifecycle_logic.rs:89-103 | the join clears the departed mark and inserts the placeholder |
| LifecycleLogics.LifecycleLogic.OnNodeLeft | dstate/src/core/lifecycle_logic.rs:109-122 | the leave removes the entry and sets the mark |
| ShardCores.ShardCore.ApplyMutation | dstate/src/core/shard_core.rs:253-274 | state, own entry and returned generation and view move on together |
| ShardCores.ShardCore.ApplyMutationWithDelta | dstate/src/core/shard_core.rs:285-311 | the same, with the projected delta |
| ShardCores.ShardCore.PrepareMutation | dstate/src/core/shard_core.rs:321-339 | the prepared mutation is the update of a copy, and nothing changes |
| ShardCores.ShardCore.CommitMutation | dstate/src/core/shard_core.rs:351-369 | takes effect exactly when its base is the current generation |
| ShardCores.ShardCore.PrepareMutationWithDelta | dstate/src/core/shard_core.rs:373-400 | the same preparation, with the projected delta |
| ShardCores.ShardCore.CommitDeltaMutation | dstate/src/core/shard_core.rs:408-425 | the same guard and effect, with the delta handed back |
| ShardCores.ShardCore.AcceptInboundSnapshot | dstate/src/core/shard_core.rs:433-466 | accepted exactly when newer; a marker survives only if it is still ahead |
| ShardCores.ShardCore.AcceptInboundDelta | dstate/src/core/shard_core.rs:480-542 | unknown peer, discard, gap and exact successor, each with its effect |
| ShardCores.ShardCore.MarkStaleAt | dstate/src/core/shard_core.rs:556-569 | the marker is overwritten exactly when the announcement is newer than the view |
| ShardCores.ShardCore.OnNodeJoined | dstate/src/core/shard_core.rs:580-601 | a zero-generation placeholder is inserted only if there is no entry |
| ShardCores.ShardCore.OnNodeLeft | dstate/src/core/shard_core.rs:606-611 | the entry is removed unless it is the node's own |
| ShardCores.ShardCore.QueryLocal | dstate/src/core/shard_core.rs:628-656 | the projection of the whole map, with each peer listed once that is marked or was synced longer ago than allowed, and no other |
| ViewMaps.ViewMap.Get | dstate/src/core/view_map.rs:67-70 | reads the plain map |
| ViewMaps.ViewMap.Update | dstate/src/core/view_map.rs:77-86 | overwrites a present entry and refuses an absent one |
| ViewMaps.ViewMap.InsertNode | dstate/src/core/view_map.rs:92-101 | inserts an absent entry and refuses a present one |
| ViewMaps.ViewMap.Upsert | dstate/src/core/view_map.rs:105-117 | sets the entry in either case |
| ViewMaps.ViewMap.RemoveNode | dstate/src/core/view_map.rs:123-132 | removes the entry and says whether there was one |
| ViewMaps.ViewMap.UpdateIf | dstate/src/core/view_map.rs:189-222 | stores what the closure returns, also on absence, and leaves the map untouched on refusal |
| ViewMaps.ViewMap.Snapshot | dstate/src/core/view_map.rs:146-151 | returns the plain map |
| ViewMaps.ViewMap.StaleList | dstate/src/core/view_map.rs:163-181 | lists exactly the peers that are marked or were synced longer ago than allowed |
| OverlappingReads.SnapshotIsSound | dstate/src/core/view_map.rs:146-151 | a snapshot that overlaps any operations of a shard has the key set of its outer load, each view was really held by its node during the read, no peer's view is older than at the load, and neither is the own view unless a message forged in the node's name arrives |
| OverlappingReads.SnapshotHoldsRealViews | dstate/src/core/view_map.rs:146-151 | the key set and the held views need no assumption on the writes |
| OverlappingReads.ShardWrites | dstate/src/core/shard_core.rs:433-675 | every shard operation is one write of the view map, and stores an older generation over a newer one exactly when it is a mutation whose own entry is ahead |
| OverlappingReads.InStepKept | dstate/src/core/shard_core.rs:660-675 | the own entry stays in step if and only if the operation is not forged, and while it is in step no write goes down |
| OverlappingReads.ForgedSnapshotGoesDown | dstate/src/core/shard_core.rs:433-466 | after a forged own snapshot the next mutation goes down if and only if the forgery was more than one age ahead |
| OverlappingReads.CellHoldsRecentView | dstate/src/core/view_map.rs:67-132 | a loaded cell read later holds a view its node held between load and read |
| OverlappingReads.CellNeverOlder | dstate/src/core/view_map.rs:77-132 | a loaded cell does not become older if no store to its node goes down |
| OverlappingReads.WritesRefineMap | dstate/src/core/view_map.rs:77-132 | on the shared cells every write acts as on a plain map |
| SnapshotJoin.MergeIsMaximum | dstate/src/core/shard_core.rs:241-243 | merging any sequence of snapshots leaves the greatest offered generation with its value |
| SnapshotJoin.MergeIsJoin | dstate/src/core/shard_core.rs:433-466 | sequences that deliver the same set leave the same generation and value: order and repetition do not matter |
| TwoPhase.GuardMeansCurrentState | dstate/src/core/shard_core.rs:351-362 | a commit that passes its guard was prepared from exactly the current state |
| TwoPhase.NoLostUpdates | dstate/src/core/shard_core.rs:253-369 | over any interleaving the state is the fold of the mutations that took effect |
| TwoPhase.FoldIs | dstate/src/core/shard_core.rs:253-274 | updates one after the other change the value by their closures in order, the age by their number, and the modification time to that of the last |
| TwoPhase.OneCommitPerBase | dstate/src/core/shard_core.rs:351-362 | of the mutations prepared from one generation at most one commits |
| Startup.PublishedSoundlyIff | dstate/src/core/persistence_startup_logic.rs:103-156 | over every run of prepares, saves, commits, crashes and starts that the code allows, published generations never go down and none is published with two views, if and only if each start publishes what may follow the last publication |
| Startup.StepIsSoundIff | dstate/src/core/shard_core.rs:321-369 | only starts can break soundness: the generation guard is enough for commits, whatever the store holds |
| Startup.CommitSurvivesIff | dstate/src/core/shard_core.rs:351-369 | a guarded commit, a crash and a start from the store are sound if and only if the store held something newer than the commit or the very same, which a host can test before it commits |
| Startup.RestartIsSoundIff | dstate/src/core/persistence_startup_logic.rs:125-140 | at any moment of a running node, a crash and a start from the store are sound if and only if the store backs the current state |
| Startup.ClockStartsFollow | dstate/src/core/persistence_startup_logic.rs:114-187 | a fresh start, a start after a load error and one after a failed migration may follow whatever was published, if the clock is ahead of it |
| Startup.CarefulHostsAreSound | dstate/src/core/persistence_startup_logic.rs:103-156 | persist before publish: a host that saves what is based on the current state and commits what the store holds is sound over all its lives, as long as no start reads a store that was left behind |
| Startup.CarefulStartIff | dstate/src/core/persistence_startup_logic.rs:103-187 | for such a host a start from the store is sound if and only if no fallback start has left the store behind; every other start is |
| Startup.FallbackThenRestoreGoesDown | dstate/src/core/persistence_startup_logic.rs:114-130 | a failed load, a crash and a successful load publish an older generation |
| Startup.InterleavedSavesSplitAGeneration | dstate/src/core/shard_core.rs:321-369 | the run that prepares two mutations from one base, saves both, commits the first, crashes and restarts is allowed by the code, and sound if and only if both show the same view |
| Startup.SplitHappens | dstate/src/core/shard_core.rs:321-369 | such a run, from a first start on, publishes one generation with two views |
| Startup.FailedMigrationMovesOn | dstate/src/core/persistence_startup_logic.rs:141-187 | a failed migration starts above the loaded incarnation whatever the clock says |
| Migrations.NothingStored | dstate/src/core/persistence_startup_logic.rs:121-124 | without a stored state a start is fresh, from the default and the clock |
| Migrations.NothingLoaded | dstate/src/core/persistence_startup_logic.rs:114-120 | a load error falls back to the default and the clock, with the reason |
| Migrations.RestoredIff | dstate/src/core/persistence_startup_logic.rs:125-128 | a stored state is taken unchanged if and only if it has the program's version |
| Migrations.MigrationIsKept | dstate/src/core/persistence_startup_logic.rs:129-140 | a migrated start holds the migrated value at the new version, with generation and times as stored; a second start of it restores it |
| Migrations.MigrationFails | dstate/src/core/persistence_startup_logic.rs:141-184 | a failed migration starts from the default, at the larger of the clock and the loaded incarnation plus one |
| Migrations.NeverMigratedAgain | dstate/src/core/persistence_startup_logic.rs:105-155 | over any history, once a program has started and saved, its later starts that can load the store take it as it is |
| Migrations.MigratedWorkSurvives | dstate/src/core/persistence_startup_logic.rs:125-140 | migrate, mutate, save, commit, crash and start again: the node continues from the mutation of the migrated value |
| ChangeFeed.ChangeFeedLogic.NotifyChange | dstate/src/core/change_feed_logic.rs:92-107 | the higher generation stays under its key |
| ChangeFeed.ChangeFeedLogic.Flush | dstate/src/core/change_feed_logic.rs:112-131 | drains everything pending into one notice per key, or nothing |
| ChangeFeed.PendingIsMaximum | dstate/src/core/change_feed_logic.rs:92-131 | over any run, what is pending under a key is the maximum of its notices since the last flush |
| ChangeFeed.OrderDoesNotMatter | dstate/src/core/change_feed_logic.rs:144-157 | every permutation of a batch has the same effect at the receiver |
| ChangeFeed.BatchingIsInvisible | dstate/src/core/change_feed_logic.rs:92-157 | for ascending notices of an owner the batch leaves the markers that the single notices leave |
| DeltaWitness.DeltaLawIff | dstate/src/test_support/test_state.rs:99-118 | with overflow checks the test state meets the delta law exactly when its counter does not cross the middle of its range |
| DeltaWitness.WrappingMeetsDeltaLaw | dstate/src/test_support/test_state.rs:99-118 | without overflow checks it meets the delta law everywhere |
| DeltaWitness.DeltasFollowState | dstate/src/test_support/test_state.rs:99-118 | over any sequence of described changes below the middle the deltas carry the view along |

## Left out

- MockClusters.MockCluster.AddNode: asks for an engine that was newly built and has a fresh incarnation, because a generation used by two lives would break agreement; the source takes any engine.
- MockCluster: its nodes hold engine values, not engine objects; the class DistributedStateEngine is verified against the same value functions, but aliasing between node and engine object is not modelled. Nodes are visited in any order, which includes the sorted order of the source.
- Direct access to a mock node's engine (`engine_mut`), `tick_n` and the counters' accessors: their effects are those of the engine operations.
- Interceptors with state of their own are functions of the message id and the copy's position; the concrete interceptors, `splitmix64` and the drop rates are not modelled.
- dstate-dactor (actors, peer registry, tokio timers): not part of this model.
- Byte formats, bincode and serde: encoders and decoders are parameters with the hypotheses above.
- `StateRegistry`, type erasure and downcasts: easy map facts only.
- `DeltaAccumulator`: a buffer the engine never calls.
- `state_mut`: unrestricted write access would void the version-stamp argument.
- `sync_status`, latency bookkeeping, tracing, Display implementations and config constructors: data or formatting.
- The pull and retry flows of the design document: the code has no coalescing or timeouts.
- OverlappingReads: reads and writes of one cell or one table pointer are atomic steps; memory ordering below that is not modelled.
- Durations are whole milliseconds; real clocks are inputs.
- Panics of the source are results here: a failed commit guard and an exceeded settling limit return None.
