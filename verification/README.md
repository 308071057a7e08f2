# spiderw: a verified model

spiderw is a Go client for iwd over D-Bus, with a mock iwd used by its integration tests. This project
models the parts of both that hold state, run concurrently or reason over keys and indices, and proves
what they promise. `dafny verify dfyconfig.toml` checks everything.

## What is modelled

Signals (`internal/iwdbus/introspect.go`). `DBusNames` and `SignalIndex` treat the string-keyed handler
maps as an index over a plain list of registrations; `SignalRegistry` is the registry as classes over
arrays compacted in place; `DispatchLifecycle` is the dispatcher, the handler group and `Close` as a
step system with its atomic steps at the lock boundaries, `DispatchDelivery` follows a signal from its
delivery to the handlers it starts, and `DispatchShutdown` is what can still start once `Close` has set
`closing`.

Agents. `AgentLifecycle` is the credentials-agent protocol: `RegisterAgent`, `Unregister` and `Close` as
interleaved program counters over one state that holds the client's slot, the agents' flags, the
connection's export table and the daemon's registry. `AgentTeardown` proves what every run keeps,
`AgentOutcomes` what the calls return, `AgentLiveness` the lock order and that every call ends,
`AgentTie` and `AgentTieLimits` when export table and registry agree and the exact condition.
`AgentRequests` is the cancellation of requests, `SignalAgents` the signal-level monitors, `MockAgents`
the daemon's registry as a class.

The object tree (`tools/test-mocks/iwdmock/internal/mock`). `ObjectTree` gives the effect and the
signals of every call; `MockObjects` and `MockRegistry` are the same objects as classes with loops,
proved to do just that. `CallReads` tells each call by what a client then reads. `TreeReplay` and
`TreeRuns` prove that replaying the signals reconstructs the tree and exactly when not; `DeviceModes` is
about mode switches, `TreeFixtures` about the start under every omit flag, `KnownNetworkPaths` about the
hex encoding of paths.

Reading. `ClientReads` has the decoders, single and bulk reads and typed subscriptions, `ClientWire`
says which values they take, `ClientView` puts them on top of the replayed tree and `ClientDecodes`
takes an object of the mock all the way to the client. `ClientSubscriptions` turns the signals of a run
into the events of a typed subscription; `SubscriptionRuns`, `LinkSubscription`, `LinkLimits` and
`ScanningSubscription` prove over all runs exactly when a subscription holds what the next bulk read
returns, `LinkFixtures` what that comes to for the mock's own networks. `Enumeration` is the sorted
enumeration of objects, `ErrorChain` the algebra of errors over three layers and `ErrorWalk` its
references, `SignalBands` the threshold bands.

## Reading the models

- A step of a step system is one critical section, one bus call or one goroutine start. A timed wait
  is a choice between "done" and "gave up". Code under a lock is one step unless it makes a bus call.
- A bus call either has its effect and succeeds, or fails without effect. Each D-Bus method of the mock
  is one step, and the end of a scan is a step of its own. Signals reach the client in the order sent.
- Identifiers and counters are unbounded; strings are sequences of bytes or characters as noted.
- `restarted` in `ObjectTree.Obj` is history: it says that an access point was started while a scan
  from before its stop was still asleep. `TreeRuns.CarefulReplayIsLive` states the same boundary as a
  guard on the call.

## Where the code and its comments differ

- introspect.go:87-90 says no handler goroutine is spawned once `closing` is set. The code guarantees
  that none is counted: the `go` statements follow the count outside the lock, so handlers counted
  before may start after `closing` is set when `Close` gave up on the dispatcher, also where its wait
  for the handlers then ends by itself (`DispatchShutdown.HandlerStartsAfterClosing`). None starts if
  and only if none was in hand then (`DispatchShutdown.NoneStartsExactlyWhen`), and none after a
  `Close` whose wait for the handlers ended by itself (`DispatchLifecycle.NoHandlerAfterCleanClose`).
- internal/core/agent.go:98-99 and 157-159 say Cancel and Unregister abort an in-flight request. One that
  falls between the making of the request's context and its record misses it
  (`AgentRequests.CancelMissesAnUnrecordedRequest`, `AgentRequests.CancelWorksExactlyWhenRecorded`).
- Keys are exact only for members without a dot, and a signal whose member is `*` is looked up under the
  keys of wildcards: it runs catch-all handlers twice (`SignalIndex.FaithfulExactlyWhen`,
  `SignalIndex.FaithfulExactlyWhenKeySafe`, `SignalIndex.StarMemberRunsCatchAllTwice`).
- agent.go:86-87 calls `Unregister` idempotent. A second call that overlaps the first frees the client's
  slot before the first has unexported, and a failed UnregisterAgent still unexports
  (`AgentTieLimits.TiedExactlyWhen`).
- A second monitor on a station is refused by iwd, but its rollback unexports the first one's path
  (`SignalAgents.TiedExactlyWhen`).
- accesspoint.go:395-408 does not look at invalidations, so its Scanning subscription stays true after
  a stop under a scan (`ScanningSubscription.ApScanningDiffersExactlyWhen`,
  `ScanningSubscription.StopUnderScanIsReached`).
- station.go:490-578 and network.go:326-359 speak of changes to the one object. The match rule is for its
  path (introspect.go:359), but every handle listens on the connection as a whole (introspect.go:154) and no
  handler looks at the path of a signal: where one connection follows two stations, a
  subscription to one reports changes of the other (`SubscriptionRuns.StationFollowsEveryRunExactlyWhen`),
  and where it follows two networks, one to the first reports the link of the second once that is
  connected to (`LinkLimits.ForeignNetworkMisleads`), unless it is open
  (`LinkLimits.KnownNetworkFollowsEveryRunExactlyWhen`). The paths that reach a handler are a parameter.
- The mock announces `Scanning` false when an access point starts, also while an old scan is pending
  (`TreeRuns.CarelessStartMisleads`).

## Model

| member | source | states |
|---|---|---|
| `DBusNames.SplitSignalNameAtLastDot` | internal/iwdbus/utils.go:49-58 | the split is at the last dot: joining the halves restores the name and the member has no dot |
| `DBusNames.SplitUndoesKey` | internal/iwdbus/introspect.go:321-322 | splitting the key of a pair whose member has no dot gives the pair back |
| `DBusNames.ValidPathByCharacters` | internal/iwdbus/network.go:429-448 | an object path is valid if and only if it is the root or has a leading slash, only name characters beside slashes, and a character that is no slash after each slash |
| `SignalIndex.KeysRefineMeaning` | internal/iwdbus/introspect.go:425-446 | for key-safe registrations the four map reads of a signal whose member is not `*` return exactly the live registrations that match, group by group |
| `SignalIndex.EachMatchOnce` | internal/iwdbus/introspect.go:425-446 | with key-safe registrations the map reads return each live matching registration exactly once and others never |
| `SignalIndex.ResolvedOrder` | internal/iwdbus/introspect.go:425-446 | and in the order exact, any-interface, any-member, all, by rising id inside a group |
| `SignalIndex.ValidNamesAreKeySafe` | internal/iwdbus/introspect.go:303-325 | a registration whose member is `*` or valid under the section "Valid Names" of the D-Bus Specification is key-safe |
| `SignalIndex.FaithfulExactlyWhenKeySafe` | internal/iwdbus/introspect.go:295-325 | the map reads agree with the list for every signal whose member is not `*` if and only if every live registration is key-safe |
| `SignalIndex.RunsExactly` | internal/iwdbus/introspect.go:425-446 | for any names and registrations a signal runs a registration once if it matches, and once more if its key is misread |
| `SignalIndex.FaithfulExactlyWhen` | internal/iwdbus/introspect.go:425-446 | for any one signal, `*` members included, the map reads agree with the list if and only if it misreads no live registration |
| `SignalIndex.FaithfulForEveryNameExactlyWhen` | internal/iwdbus/introspect.go:303-325 | they agree for every string as a signal name if and only if no live registration is catch-all, an exact pair with a dot in its member, or any-interface with a member ending in `.*` |
| `SignalIndex.AlwaysSafeExactlyWhen` | internal/iwdbus/introspect.go:303-325 | a registration is misread by no signal at all if and only if it has none of these three shapes |
| `SignalIndex.StarMemberRunsCatchAllTwice` | internal/iwdbus/introspect.go:436-444 | whatever else is registered, a signal whose member is literally `*` runs each catch-all handler twice where the list would run it once |
| `SignalRegistry.Bucket.ShiftDown` | internal/iwdbus/introspect.go:334 | the in-place copy: the tail moves down one place, everything before stays |
| `SignalRegistry.Bucket.Remove` | internal/iwdbus/introspect.go:331-339 | the array after removal holds the old handlers without the given id, the freed cell is cleared |
| `SignalRegistry.Table.Remove` | internal/iwdbus/introspect.go:330-345 | removing an id changes one bucket only and drops the bucket when it becomes empty |
| `SignalRegistry.Registry.Add` | internal/iwdbus/introspect.go:281-325 | a registration is stored under a fresh id, and the index stays exact |
| `SignalRegistry.Registry.Resolve` | internal/iwdbus/introspect.go:425-446 | the callbacks of a signal, in a fresh list |
| `SignalRegistry.Registry.Unsubscribe` | internal/iwdbus/introspect.go:327-349 | exactly the own entry leaves, the first time only |
| `SignalRegistry.Registry.Register` | internal/iwdbus/introspect.go:269-373 | the whole registration: refusals change nothing, a failed AddMatch removes the entry again |
| `SignalRegistry.ResolveThenUnsubscribe` | internal/iwdbus/introspect.go:432-445 | a list resolved before an unsubscribe is not touched by the in-place removal |
| `SignalRegistry.AddKeepsIndex` | internal/iwdbus/introspect.go:303-325 | adding to the bucket of a registration keeps every bucket equal to the live registrations of its slot |
| `SignalRegistry.RemoveKeepsIndex` | internal/iwdbus/introspect.go:330-345 | removing from it does too |
| `SignalRegistry.BucketShape` | internal/iwdbus/introspect.go:303-345 | ids rise strictly inside every bucket, and no id is in two buckets |
| `SignalRegistry.ResolvesByMeaning` | internal/iwdbus/introspect.go:425-446 | for registrations with valid names the callbacks resolved are those of the matching registrations in order |
| `SignalRegistry.UndoneRegistrationLeavesNoTrace` | internal/iwdbus/introspect.go:368-371 | a registration undone after a failed AddMatch leaves the registry as if it had never been, whatever others did meanwhile |
| `DispatchLifecycle.WaitGroupIsExact` | internal/iwdbus/introspect.go:391-423 | in every reachable state the handler count is the handlers counted but not spawned plus those running |
| `DispatchLifecycle.AcceptedSignalsAreSpawnedWhole` | internal/iwdbus/introspect.go:412-420 | the handlers started are the accepted lists, whole and in order, but for the list being spawned; what those lists are is `DispatchDelivery.AcceptedAreOwed` |
| `DispatchDelivery.SignalsInOrder` | internal/iwdbus/introspect.go:391-402 | over every run the signals received and then those still buffered are the signals delivered, in order and none lost |
| `DispatchDelivery.ResolvesExactlyTheMatching` | internal/iwdbus/introspect.go:404-446 | in every reached state, for names the bus allows, resolving the signal in hand names each live registration that matches it exactly once, no other id, in the documented order |
| `DispatchDelivery.AcceptedAreOwed` | internal/iwdbus/introspect.go:391-423 | over every run the k-th accepted list holds the ids of exactly the registrations that matched the k-th named signal received when it was resolved; at most one list owed is missing, the one in hand or the one refused because closing was set |
| `DispatchDelivery.LiveExactly` | internal/iwdbus/introspect.go:303-345 | over every run the live registrations are those made and not unsubscribed since, in the order they were made |
| `DispatchDelivery.DispatcherEndsOnlyWhenTold` | internal/iwdbus/introspect.go:391-409 | the dispatcher ends only once its context is cancelled, its channel closed and drained, or closing set |
| `DispatchDelivery.DispatcherCanEnd` | internal/iwdbus/introspect.go:393-399 | a selecting dispatcher whose context is cancelled, or whose drained channel is closed, can end at once |
| `DispatchDelivery.NothingDeliveredWhenDeaf` | internal/iwdbus/introspect.go:163-175 | once the channel is closed or Close has detached it no run delivers a signal |
| `DispatchLifecycle.NoAddOnceClosing` | internal/iwdbus/introspect.go:404-411 | once closing is set the handler count never rises and no signal is accepted |
| `DispatchLifecycle.NoAddOnceWaiting` | internal/iwdbus/introspect.go:176-181 | no Add runs after the handler wait has begun, even when a timed wait gave up early |
| `DispatchLifecycle.NoHandlerAfterCleanClose` | internal/iwdbus/introspect.go:163-189 | if the handler wait ended by itself, no handler runs or starts after Close, in every interleaving, even with a dispatcher started later and signals still buffered |
| `DispatchShutdown.OnlyPendingStarts` | internal/iwdbus/introspect.go:404-420 | what starts after closing is set are handlers counted before, in their order, and nothing else |
| `DispatchShutdown.NoneStartsExactlyWhen` | internal/iwdbus/introspect.go:87-90 | once closing is set no run starts a handler if and only if none was counted and not yet started then; equally, if and only if the handler count was the number running |
| `DispatchShutdown.HandlerStartsAfterClosing` | internal/iwdbus/introspect.go:404-420 | a run in which a handler starts after closing is set although no wait for handlers gives up and Close ends cleanly |
| `DispatchLifecycle.ReturnedMeansClosed` | internal/iwdbus/introspect.go:168-189 | a Close call that has returned finds shutdown complete |
| `DispatchLifecycle.CloseCanFinish` | internal/iwdbus/introspect.go:163-189 | from every reachable state Close can finish, whatever the handlers do |
| `DispatchLifecycle.UnsubscribedRunsAtMostOnceMore` | internal/iwdbus/introspect.go:266-268 | after an unsubscribe the callback starts at most once more, and only for a signal already in dispatch |
| `AgentLifecycle.OneSenderNeverDropsAnothers` | tools/test-mocks/iwdmock/internal/mock/agent.go:37-61 | no register or unregister of one sender changes the registration of another |
| `AgentLifecycle.StepKeepsInv` | client.go:136-248 | every step of RegisterAgent, Unregister and Close, in any interleaving and with any bus outcome, keeps the protocol invariant |
| `AgentLifecycle.RunKeepsInv` | client.go:136-248 | so does every run |
| `AgentTeardown.AtMostOneRegistered` | client.go:216-248 | at most one agent has the flag up, and the slot, the RegisterAgent owning closeMu, or Close answers for it |
| `AgentTeardown.NoneRegisteredAfterClose` | client.go:141-156 | after the unregister step of Close no agent is registered and none can become so |
| `AgentTeardown.TornDownAtMostOnce` | internal/core/agent.go:100-140 | no agent is unregistered or unexported twice, cleanup runs at most once, and all Close calls return the same, after it; what they return is `AgentOutcomes.CloseReportsItsCleanup` |
| `AgentTeardown.TornDownExactlyOnceAtRest` | internal/connect/wiring.go:449-482 | at rest every agent is in the slot and registered, or was torn down once, or its export was rolled back once |
| `AgentOutcomes.CloseReportsItsCleanup` | client.go:136-173 | no Close returns before the cleanup, and over every run after it every Close fails if and only if that cleanup failed |
| `AgentOutcomes.EveryCloseReturns` | client.go:136-173 | over every run each Close call that ends returns one result |
| `AgentOutcomes.RegisterOutcome` | client.go:201-248 | an uninterrupted RegisterAgent hands out a registered, exported agent in the slot if and only if the client is open, its slot free, export, manager lookup and registration work and the daemon has no agent; else slot and daemon stay, and an export made is rolled back |
| `AgentOutcomes.UnregisterOutcome` | internal/core/agent.go:100-140 | an uninterrupted Unregister that finds the flag up takes it, makes each bus call once and undoes registration and export exactly where its call worked; with the flag down it makes none; either way its slot is free |
| `AgentOutcomes.ForeignAgentKeepsOut` | tools/test-mocks/iwdmock/internal/mock/agent.go:37-61 | another client's registration makes RegisterAgent roll back until that client unregisters it at its path |
| `AgentLiveness.WaitsClimb` | client.go:141-248 | the holder of a lock is a live call that, if it waits, waits for a later lock of the fixed order |
| `AgentLiveness.NoWaitCycle` | client.go:141-248 | calls never wait in a circle; a chain of waiting calls has at most three members |
| `AgentLiveness.EveryCallEnds` | client.go:136-248 | calls in progress take a bounded number of steps, and while one is left some call can move |
| `AgentTie.RunKeepsTie` | internal/core/agent.go:125-137 | without overlapping Unregister and failing UnregisterAgent every run keeps export table and daemon registry tied |
| `AgentTie.RegisteredMeansKnownAndExported` | internal/connect/wiring.go:462-481 | then a raised flag means the daemon holds this agent and it is exported |
| `AgentTie.AgreeAtRest` | internal/connect/wiring.go:449-482 | and with no call in progress slot, export table and daemon agree |
| `AgentTie.FailedRegistrationLeavesNothing` | internal/connect/wiring.go:462-478 | whatever the environment does, a failed NewAgent leaves no registration, and no export if unexporting works |
| `AgentTieLimits.OverlapBreaksTheTie` | agent.go:97-102 | wherever handles may be unregistered by overlapping calls, a run after which a registered agent is not exported |
| `AgentTieLimits.FailedUnregisterBreaksTheTie` | internal/core/agent.go:125-137 | a run with a failed UnregisterAgent that ends the same way |
| `AgentTieLimits.EachAssumptionIsNeeded` | internal/core/agent.go:100-140 | each of the two alone suffices: overlapping calls with every UnregisterAgent working, and a failing one without overlap |
| `AgentTieLimits.TiedExactlyWhen` | internal/core/agent.go:100-140 | every run keeps the tie if and only if Unregister calls on a handle do not overlap and UnregisterAgent does not fail |
| `AgentRequests.RecordedMeansInFlight` | internal/core/agent.go:160-171 | a recorded cancel belongs to a request in its callback, overlapping requests or not |
| `AgentRequests.CancelledOnlyOnDemand` | internal/core/agent.go:160-171 | a running callback is cancelled only by a Cancel or Unregister made during it |
| `AgentRequests.CancelReachesTheRequest` | internal/core/agent.go:214-224 | with serial requests a Cancel, or the Unregister that takes the flag, whose snapshot falls between the record and the clear of a request cancels its context |
| `AgentRequests.OnRecordExactlyInCallback` | internal/core/agent.go:160-171 | with serial requests a context is on record exactly between its record and its clear |
| `AgentRequests.CancelsExactlyTheRecorded` | internal/core/agent.go:214-224 | overlapping or not, a Cancel, or an Unregister that finds the flag up, cancels the context on record at its snapshot and no other; one that finds it down cancels nothing. When the flag is down is `AgentRequests.FlagTakenAtMostOnce` |
| `AgentRequests.FlagTakenAtMostOnce` | internal/core/agent.go:107-112 | over every run at most one Unregister fires, and the flag is down if and only if one took it |
| `AgentRequests.LaterUnregistersDoNothing` | internal/core/agent.go:107-112 | from the snapshot of an Unregister on the flag is down, and every later Unregister ends at its snapshot and cancels nothing |
| `AgentRequests.FinishedContextsReleased` | internal/core/agent.go:157-171 | over every run a context is in use by a request in progress or cancelled; none leaks |
| `AgentRequests.CancelWorksExactlyWhenRecorded` | internal/core/agent.go:157-171 | a Cancel made and ended during a request has cancelled it if and only if its snapshot was taken between the record and the clear |
| `AgentRequests.CancelMissesAnUnrecordedRequest` | internal/core/agent.go:160-164 | a serial run in which a Cancel falls between the making of a context and its record, and the callback runs uncancelled |
| `AgentRequests.CancelSparesLaterRequests` | internal/core/agent.go:107-123 | no Cancel or Unregister cancels a request begun after it took its snapshot |
| `AgentRequests.RecordsTheRequestExactlyWhenSerial` | internal/core/agent.go:160-171 | the record always names the running request if and only if requests are serial |
| `SignalAgents.AgentPath` | internal/connect/wiring.go:486-495 | different stations have different export paths |
| `SignalAgents.RunKeepsInv` | internal/connect/wiring.go:503-542 | with one monitor per station and no failed unregistration every run keeps registry and exports tied |
| `SignalAgents.TwoMonitorsBreakTheTie` | internal/connect/wiring.go:527-538 | a refused second monitor unexports the path of the first |
| `SignalAgents.TiedExactlyWhen` | internal/core/signalagent.go:127-160 | every run keeps the tie if and only if a station has one monitor at a time and unregistration does not fail |
| `SignalAgents.NothingStaysBehind` | internal/connect/wiring.go:503-542 | with one monitor per station and working unregistration a bound monitor is exported and registered, and of one that is over nothing is registered, nor exported where unexporting works |
| `SignalAgents.AcceptedExactlyWhenFree` | tools/test-mocks/iwdmock/internal/mock/signalagent.go:43-58 | a station accepts a monitor if and only if the call goes through and no client monitors it |
| `SignalAgents.OneAgentPerStation` | tools/test-mocks/iwdmock/internal/mock/signalagent.go:43-73 | a registration is taken only when the station has none and dropped only by its sender at its path; other stations are untouched |
| `SignalAgents.ForeignMonitorKeepsOut` | tools/test-mocks/iwdmock/internal/mock/signalagent.go:43-73 | another client's monitor makes the station refuse this one's until that client takes it away |
| `SignalAgents.StationsApart` | tools/test-mocks/iwdmock/internal/mock/signalagent.go:46-73 | any step about one station, however its bus call ends, leaves registration, object and agents of every other as they were |
| `MockAgents.AgentRegistry.Register` | tools/test-mocks/iwdmock/internal/mock/agent.go:37-47 | accepted exactly when nothing is registered; a registration that stands is kept, and a new one can be undone by its sender at its path only |
| `MockAgents.AgentRegistry.Unregister` | tools/test-mocks/iwdmock/internal/mock/agent.go:51-61 | changes nothing unless sender and path are those registered; after success the next register is accepted, whoever makes it |
| `MockAgents.OnlyTheRegistrantUndoes` | tools/test-mocks/iwdmock/internal/mock/agent.go:37-61 | an accepted registration is undone by its sender at its path and by nothing else |
| `KnownNetworkPaths.HexSSID` | tools/test-mocks/iwdmock/internal/mock/lifecycle.go:152-159 | the loop computes the hex of the SSID, which decodes back to it |
| `KnownNetworkPaths.UnhexUndoesHex` | tools/test-mocks/iwdmock/internal/mock/lifecycle.go:152-159 | the hex encoding is undone, for every byte string |
| `KnownNetworkPaths.PathsIdentifyNetworks` | tools/test-mocks/iwdmock/internal/mock/lifecycle.go:147-149 | two networks share a path only when name and type are equal, for all names and types |
| `KnownNetworkPaths.KnownPathsStandApart` | tools/test-mocks/iwdmock/internal/mock/lifecycle.go:145-149 | no adapter, device, network or access point lies at such a path |
| `KnownNetworkPaths.PathIsValidExactlyWhen` | tools/test-mocks/iwdmock/internal/mock/lifecycle.go:145-149 | the path is a valid object path if and only if every part of the type between slashes consists of name characters and none but the first is empty |
| `KnownNetworkPaths.PlainPathIsValidExactlyWhen` | tools/test-mocks/iwdmock/internal/mock/lifecycle.go:145-149 | for a type without slashes, if and only if it consists of name characters |
| `TreeReplay.CallTracked` | tools/test-mocks/iwdmock/internal/mock/device.go:242-285 | any call on one object is announced so that replaying its signals gives the object again |
| `TreeReplay.SwitchTracked` | tools/test-mocks/iwdmock/internal/mock/lifecycle.go:171-240 | so is a mode switch |
| `TreeReplay.ApCallTracked` | tools/test-mocks/iwdmock/internal/mock/accesspoint.go:112-221 | so are the access point calls, up to the restarted case |
| `TreeReplay.StationCallTracked` | tools/test-mocks/iwdmock/internal/mock/station.go:68-212 | so are the station calls |
| `TreeRuns.PerformKeepsWellFormed` | tools/test-mocks/iwdmock/internal/mock/lifecycle.go:68-139 | every call and every end of a scan keeps paths distinct and known-network paths reserved |
| `TreeRuns.ConnectTracked` | tools/test-mocks/iwdmock/internal/mock/network.go:156-181 | Connect with provisioning is announced completely |
| `TreeRuns.ForgetTracked` | tools/test-mocks/iwdmock/internal/mock/lifecycle.go:68-96 | Forget is announced completely, link by link |
| `TreeRuns.SnapshotShows` | tools/test-mocks/iwdmock/internal/mock/objectmanager.go:34-89 | the snapshot shows at a path the last registered object there |
| `TreeRuns.ReplayIsLiveExactlyWhen` | tools/test-mocks/iwdmock/internal/mock/objectmanager.go:34-89 | after any run the replayed view reads as the live tree if and only if no exported access point stands restarted under an old scan |
| `TreeRuns.CarefulReplayIsLive` | tools/test-mocks/iwdmock/internal/mock/accesspoint.go:174-221 | it does if nobody starts an access point while a scan of it is pending |
| `TreeRuns.CarelessStartMisleads` | tools/test-mocks/iwdmock/internal/mock/accesspoint.go:112-171 | an accepted start under a pending scan makes the two differ at once |
| `TreeRuns.LinksNameExactlyOne` | tools/test-mocks/iwdmock/internal/mock/lifecycle.go:68-139 | over every run each network link is empty or names exactly one exported known network, and their paths stay unique |
| `TreeRuns.ForgetUndoesProvision` | tools/test-mocks/iwdmock/internal/mock/lifecycle.go:68-139 | forgetting a just provisioned network undoes the provisioning and nothing else |
| `DeviceModes.ModeDecidesInterfaces` | tools/test-mocks/iwdmock/internal/mock/lifecycle.go:171-240 | after any run a device has at most one mode interface, the one its Mode names unless omitted, and exports, introspection and ObjectManager agree |
| `DeviceModes.CallKeepsModeAgreement` | tools/test-mocks/iwdmock/internal/mock/device.go:260-285 | every call on a device, every Mode string included, keeps that agreement |
| `TreeFixtures.FixturesWellFormed` | tools/test-mocks/iwdmock/main.go:44-79 | all objects the mock starts with, under every choice of the omit flags, satisfy what the run theorems ask |
| `TreeFixtures.FixturePathsAreEncoded` | tools/test-mocks/iwdmock/internal/mock/knownnetwork.go:27-36 | the literal known-network paths are the ones the encoding gives |
| `TreeFixtures.FixturesAgreeOnModes` | tools/test-mocks/iwdmock/internal/mock/device.go:99-128 | the starting devices agree with their modes under any flags |
| `TreeFixtures.FixtureLinksResolveExactlyWhen` | tools/test-mocks/iwdmock/internal/mock/network.go:27-37 | the starting links resolve if and only if the networks are omitted or the known networks are not |
| `MockObjects.DeviceObject.Scan` | tools/test-mocks/iwdmock/internal/mock/station.go:68-83 | accepted exactly when a station is there and not scanning, each refusal for its own reason; a client then reads Scanning true and all else as before, followers of the bus stay exact and a refusal is silent |
| `MockObjects.DeviceObject.EndScan` | tools/test-mocks/iwdmock/internal/mock/station.go:84-91 | a client then reads Scanning false and all else as before, and followers stay exact |
| `MockObjects.DeviceObject.Disconnect` | tools/test-mocks/iwdmock/internal/mock/station.go:155-172 | accepted exactly when a station is there; a client then reads State disconnected, no network, no access point and all else as before, and followers stay exact |
| `MockObjects.DeviceObject.ConnectHidden` | tools/test-mocks/iwdmock/internal/mock/station.go:177-212 | accepted exactly for the open hidden network, or the secured one with its passphrase, each refusal for its own reason; a client then reads State connected, that network and all else as before, and followers stay exact |
| `MockObjects.DeviceObject.ApStart` | tools/test-mocks/iwdmock/internal/mock/accesspoint.go:112-128 | accepted exactly when an access point is there and stopped and the credentials are long enough, each refusal for its own reason; a client then reads Started, the SSID, frequency and ciphers and all else as before; followers stay exact up to the restarted case |
| `MockObjects.DeviceObject.ApStartProfile` | tools/test-mocks/iwdmock/internal/mock/accesspoint.go:132-149 | the same with the stored profile only |
| `MockObjects.DeviceObject.ApStop` | tools/test-mocks/iwdmock/internal/mock/accesspoint.go:174-188 | accepted exactly when an access point is there; a client then reads Started and Scanning false, no optional property and all else as before, and followers stay exact |
| `MockObjects.DeviceObject.ApScan` | tools/test-mocks/iwdmock/internal/mock/accesspoint.go:196-212 | accepted exactly when started and not scanning, each refusal for its own reason; a client then reads Scanning true and all else as before, and followers stay exact |
| `MockObjects.DeviceObject.EndApScan` | tools/test-mocks/iwdmock/internal/mock/accesspoint.go:214-221 | a client then reads Scanning false and all else as before, and followers stay exact |
| `MockObjects.DeviceObject.SwitchTo` | tools/test-mocks/iwdmock/internal/mock/lifecycle.go:171-240 | the removals and additions on the fields amount to the mode switch of the model with its signals |
| `MockObjects.DeviceObject.Set` | tools/test-mocks/iwdmock/internal/mock/device.go:242-285 | Mode is taken exactly as a text, Powered as a bool, Affinities as paths where a station is; a client then reads the value set and all else as before, after Mode the interfaces of that mode; followers stay exact and a refusal is silent |
| `MockObjects.ClientsFollowCall` | tools/test-mocks/iwdmock/internal/mock/device.go:242-285 | whatever a client believed of an object, replaying the signals of an accepted call makes it the object again; a refused call neither changes nor announces anything |
| `CallReads.ReadsByName` | tools/test-mocks/iwdmock/internal/mock/device.go:173-183 | every object shows each of its properties under its own name and no other, null paths as nothing, a stopped access point as Started and Scanning false and nothing else |
| `CallReads.StationReads` | tools/test-mocks/iwdmock/internal/mock/station.go:68-212 | after an accepted station call exactly the properties it is about read anew, every other of the object as before |
| `CallReads.AccessPointReads` | tools/test-mocks/iwdmock/internal/mock/accesspoint.go:112-221 | the same for the access point calls; a start shows a scan left pending by an earlier stop |
| `CallReads.SetDeviceReads` | tools/test-mocks/iwdmock/internal/mock/device.go:242-285 | the same for what can be set of a device, told without the call of the model; a new Mode brings the interfaces of that mode |
| `CallReads.SetOtherReads` | tools/test-mocks/iwdmock/internal/mock/knownnetwork.go:156-172 | of an adapter Powered can be set to a bool, of a known network AutoConnect, and nothing else changes |
| `CallReads.ConnectReads` | tools/test-mocks/iwdmock/internal/mock/network.go:156-181 | Connect is accepted if and only if the network is open, known or the passphrase right; it then reads connected, after a first connection also linked to a known network of its name and type that is visible and joined automatically; every other object stays |
| `CallReads.ForgetReads` | tools/test-mocks/iwdmock/internal/mock/lifecycle.go:68-96 | Forget takes out that object alone, and exactly the networks linked to it read as linked to none |
| `MockRegistry.KnownNetworkObject.Set` | tools/test-mocks/iwdmock/internal/mock/knownnetwork.go:156-172 | accepted exactly for AutoConnect and a bool, which a client then reads, all else as before; followers stay exact and a refusal is silent |
| `MockRegistry.Registry.Forget` | tools/test-mocks/iwdmock/internal/mock/lifecycle.go:68-96 | registry, links and signals after Forget are those of the model, on all registered objects: that object alone is gone and exactly its networks are unlinked |
| `MockRegistry.Registry.Provision` | tools/test-mocks/iwdmock/internal/mock/lifecycle.go:101-139 | the known network is registered, linked and announced |
| `MockRegistry.Registry.Connect` | tools/test-mocks/iwdmock/internal/mock/network.go:156-181 | registry, signals and answer after Connect are those of the model: accepted for open and known networks and the right passphrase, each refusal for its own reason, and then read as connected and remembered |
| `MockRegistry.Registry.GetManagedObjects` | tools/test-mocks/iwdmock/internal/mock/objectmanager.go:34-89 | the loops over the live registries build the snapshot of all objects |
| `ClientReads.CopyPaths` | internal/iwdbus/station.go:663-671 | a list of typed paths decodes to itself or fails at an invalid one |
| `ClientReads.CollectItems` | internal/iwdbus/network.go:486-495 | the loop over untyped items computes the list decoder |
| `ClientReads.ItemPathsExactly` | internal/iwdbus/network.go:486-495 | a list decodes if and only if every item is an acceptable path, and then to those paths in order |
| `ClientReads.GetStationProperties` | internal/iwdbus/station.go:176-233 | the bulk read succeeds with exactly what the single getters return where absence is worded as iwd words it |
| `ClientReads.GetNetworkProperties` | internal/iwdbus/network.go:202-273 | the same for networks |
| `ClientReads.GetAccessPointProperties` | internal/iwdbus/accesspoint.go:195-253 | the same for access points, absent Scanning being false |
| `ClientReads.StationReadsAgreeExactlyWhen` | internal/iwdbus/station.go:108-156 | single and bulk reads agree if and only if the bulk read fails or every absent optional is worded as iwd words it |
| `ClientReads.NetworkReadsAgreeExactlyWhen` | internal/iwdbus/network.go:139-151 | the same for networks |
| `ClientReads.ApReadsAgreeExactlyWhen` | internal/iwdbus/accesspoint.go:100-186 | the same for access points |
| `ClientWire.OptionalPathExactly` | internal/iwdbus/station.go:630-655 | an optional path decodes to an object exactly from a valid path or string under any variants, to nothing exactly from nothing, the empty and the null path |
| `ClientWire.PathExactly` | internal/iwdbus/network.go:429-448 | a required path decodes exactly from a valid path or string, the null path among them, never under a variant |
| `ClientWire.ServiceSetExactly` | internal/iwdbus/network.go:476-500 | a service set decodes exactly from the typed list of those valid paths, or from a list whose items are those paths or strings |
| `ClientWire.AffinitiesExactly` | internal/iwdbus/station.go:657-688 | affinities decode exactly from such lists with paths only, under any variants, and nothing decodes to no list |
| `ClientWire.ApOptionalsExactly` | internal/iwdbus/accesspoint.go:444-490 | the optional access point values decode exactly from a value of their type under any variants, nothing and the empty string to nothing |
| `ClientWire.RequiredExactly` | internal/iwdbus/network.go:415-425 | required values decode exactly from a value of their type, states and network types only in the words of iwd |
| `ClientWire.HoldsLastGoodWord` | internal/iwdbus/station.go:500-578 | over any events a subscription holds the last well-formed word on its property, malformed ones passed over |
| `ClientReads.SubscriptionAgrees` | internal/iwdbus/utils.go:60-72 | a subscription that heeds invalidation ends, after any events, at the value a fresh read decodes, a value sent along with an invalidation being the newer word |
| `ClientReads.StationSubscriptionsFollowReads` | internal/iwdbus/station.go:500-578 | so do the connected-network, connected-access-point and affinities subscriptions |
| `ClientReads.KnownNetworkSubscriptionFollowsReads` | internal/iwdbus/network.go:337-359 | so does the known-network subscription |
| `ClientReads.DeafSubscriptionAgreesExactlyWhen` | internal/iwdbus/accesspoint.go:395-408 | a subscription that ignores invalidation goes wrong, over any events, exactly when the last one that names its property invalidates it without a value while the subscription holds something |
| `ClientReads.StopUnderScanStaysTrue` | internal/iwdbus/accesspoint.go:395-408 | after any events, an access point stopped while known to scan leaves the Scanning subscription at true |
| `ClientView.ReplayedStationsAreFresh` | tools/test-mocks/iwdmock/internal/mock/station.go:52-62 | after any careful run a station decodes from the replayed view as from the live object |
| `ClientView.ReplayedAccessPointsAreFresh` | tools/test-mocks/iwdmock/internal/mock/accesspoint.go:91-108 | so does an access point |
| `ClientView.ReplayedNetworksAreFresh` | tools/test-mocks/iwdmock/internal/mock/network.go:124-137 | so does a network |
| `ClientDecodes.LiveObjectsDecode` | internal/iwdbus/station.go:176-233 | whatever the live objects, a client decodes a station, an access point or a network to that object's own fields, if and only if they are words and paths it takes |
| `ClientDecodes.SnapshotReadsByName` | tools/test-mocks/iwdmock/internal/mock/objectmanager.go:34-89 | GetManagedObjects reports of each object every property under its own name and no other |
| `ClientDecodes.StationDecodes` | internal/iwdbus/station.go:176-233 | the round trip for stations: fields, property map, decoders, the same fields |
| `ClientDecodes.AccessPointDecodes` | internal/iwdbus/accesspoint.go:195-253 | the same for access points, a stopped one decoding to nothing but being stopped |
| `ClientDecodes.NetworkDecodes` | internal/iwdbus/network.go:202-273 | the same for networks |
| `ClientSubscriptions.ViewIsReplayOfSaid` | tools/test-mocks/iwdmock/internal/mock/lifecycle.go:36-50 | what a run says on the bus is what the replayed view is made of |
| `SubscriptionRuns.StationHeldOverRun` | internal/iwdbus/station.go:500-578 | from any state, over any run, while no other device that reaches the handler has a station or can be given one, a station subscription ends at what the device then decodes to |
| `SubscriptionRuns.StationFollowsEveryRunExactlyWhen` | internal/iwdbus/station.go:419-451 | over every run the station subscriptions end at what the next bulk read returns, if and only if no other device whose signals reach the handler has a station or can be given one |
| `LinkSubscription.KnownNetworkFollows` | internal/iwdbus/network.go:337-359 | over every run of Connect and Forget, as long as every other network that reaches the handler is open and unlinked, the known-network subscription ends at the link the next bulk read returns |
| `LinkLimits.FirstConnectionMisleads` | tools/test-mocks/iwdmock/internal/mock/lifecycle.go:101-139 | whatever it held, a subscription that hears the first connection of another, secured network ends at that network's link, which its own does not have |
| `LinkLimits.ForeignNetworkMisleads` | internal/iwdbus/network.go:337-359 | for every other network heard that is not open, a run of one or two calls after which the subscription and the next bulk read differ |
| `LinkLimits.KnownNetworkFollowsEveryRunExactlyWhen` | internal/iwdbus/network.go:337-359 | where links name exported known networks, open networks have none and types make valid paths, over every run the subscription ends at the link the next bulk read returns if and only if every other network heard is open |
| `LinkFixtures.FixturesOrderlyExactlyWhen` | tools/test-mocks/iwdmock/internal/mock/network.go:27-57 | the objects the mock starts with are such a tree unless known networks are omitted and networks are not |
| `LinkFixtures.KnownNetFollowsExactlyWhen` | tools/test-mocks/iwdmock/internal/mock/network.go:27-57 | for the mock's own start: following KnownNet, the subscription is right over every run if and only if SecuredNet is not heard; OpenNet does no harm |
| `ScanningSubscription.ApScanningDiffersExactlyWhen` | internal/iwdbus/accesspoint.go:395-408 | over every run, whatever is heard, the access point Scanning subscription differs from the next bulk read if and only if the last word on Scanning of the devices heard (an accepted scan, start or scan end) is not whether the access point now runs and scans |
| `ScanningSubscription.HeldIsLastWord` | internal/iwdbus/accesspoint.go:395-408 | from any state, over any run and whatever is heard, the subscription holds that last word |
| `ScanningSubscription.LoneApScanningDiffersExactlyWhen` | internal/iwdbus/accesspoint.go:395-408 | with no other device heard, they differ if and only if a scan is pending that no start has superseded on a stopped access point, or one has on a running one |
| `ScanningSubscription.CarefulApScanningDiffersExactlyWhen` | internal/iwdbus/accesspoint.go:395-408 | with no other device heard and no start under a pending scan, if and only if the access point was stopped with its scan pending |
| `ScanningSubscription.StopUnderScanIsReached` | tools/test-mocks/iwdmock/internal/mock/accesspoint.go:174-221 | from every start with a running access point, and whatever else is heard, a run of two calls reaches a difference |
| `Enumeration.GetRefs` | internal/iwdbus/daemon.go:242-285 | whatever order the map is walked in, the result is the references of the one listing ascending in the order of strings; it fails if and only if there is no connection, the ObjectManager fails or a selected reference cannot be made, and with that error |
| `Enumeration.ListingUnique` | internal/iwdbus/daemon.go:276-285 | there is at most one strictly ascending listing of the selected objects |
| `Enumeration.SortByPath` | internal/iwdbus/daemon.go:276-278 | the sort yields the same entries, each path before the next in the order of strings: a proper prefix, or the smaller character at the first difference |
| `Enumeration.LessIsStringOrder` | internal/iwdbus/daemon.go:276-278 | the comparison holds if and only if one string is a proper prefix of the other or has the smaller character at the first difference |
| `ErrorChain.IwdWrappersAddOnlyTheirOwn` | internal/iwdbus/iwderrors.go:227-257 | the D-Bus wrappers keep every sentinel and add exactly their sort and, for a recognised reply, its name |
| `ErrorChain.CoreWrapperAddsOnlyItsOwn` | internal/core/errors.go:228-262 | the core wrapper keeps every sentinel and adds exactly its own |
| `ErrorChain.PublicWrapperAddsOnlyItsOwn` | errors.go:211-272 | the public wrapper keeps every sentinel and adds exactly the API sentinel and one category |
| `ErrorChain.EverySentinelSurvives` | internal/core/errors.go:254-262 | through any stack of wrappers every sentinel stays matchable, and nil stays nil |
| `ErrorChain.PublicWrapperIdempotent` | errors.go:245-272 | wrapping a public error again changes nothing |
| `ErrorChain.OneCategoryExactlyWhen` | errors.go:211-227 | a wrapped error matches exactly one category if and only if no other category was in the chain |
| `ErrorChain.FreeChainsMatchOneCategory` | errors.go:211-227 | a chain free of public sentinels ends in exactly one category |
| `ErrorChain.TableInjective` | internal/iwdbus/iwderrors.go:181-208 | different recognised names have different sentinels, none of them a category |
| `ErrorChain.RecognisedMethodErrorEndsUnavailable` | internal/iwdbus/iwderrors.go:213-241 | any error tree with a recognised reply to a method matches its named sentinel at the end under every policy, and unavailable if and only if it held no public error before or one that was unavailable |
| `ErrorChain.NamedChain` | internal/core/errors.go:228-262 | every sentinel such a tree matches at the end, and no other |
| `ErrorChain.NamedMethodErrorEndsUnavailable` | internal/iwdbus/iwderrors.go:213-241 | a plain recognised reply to a method matches no other category and no other name |
| `ErrorChain.NamedPropertyErrorEnds` | internal/core/errors.go:264-272 | to a property access it is unavailable exactly where the policy counts properties, else internal |
| `ErrorWalk.IsFindsExactlyTheWalked` | internal/core/errors.go:227-229 | errors.Is finds a sentinel if and only if the depth-first walk over what an error unwraps to comes to it |
| `ErrorWalk.CoreFoundFirst` | errors.go:245-264 | errors.As finds the first core error of that walk, or none when it has none |
| `ErrorWalk.ReplyFoundFirst` | internal/iwdbus/iwderrors.go:213-221 | and the first bus reply |
| `ErrorWalk.PublicFoundExactly` | errors.go:250-253 | and a public error if and only if the walk comes to one |
| `ErrorWalk.TableFollowsTheNames` | internal/iwdbus/iwderrors.go:181-208 | the sentinel of each recognised name is the one declared under its local part, marked for the errors of SimpleConfiguration |
| `ErrorWalk.CoreFailureEnds` | errors.go:211-264 | a core failure leaves the package in exactly the category of its kind, with its resource and its kind, internal standing for the kinds not made public |
| `ErrorWalk.OtherErrorEnds` | errors.go:266-272 | any other error leaves it internal, with no resource |
| `ErrorWalk.BusFailureEnds` | internal/core/errors.go:254-272 | connection, method, introspection and variant failures end unavailable, property failures where the policy counts them, all others internal, with the resource of the policy |
| `SignalBands.Validate` | internal/core/signalagent.go:36-52 | accepts exactly a callback with a non-empty, in-range, strictly descending list, and else reports the first fault |
| `SignalBands.CheckOrder` | cmd/spiderw/cli/station.go:725-731 | accepts exactly the strictly descending lists |
| `SignalBands.ToInt16LosslessExactlyWhen` | internal/core/signalagent.go:94-95 | the conversion is lossless if and only if the threshold is in range |
| `SignalBands.AcceptedThresholdsSurvive` | internal/core/signalagent.go:92-111 | accepted thresholds reach iwd unchanged and still descending |
| `SignalBands.BandsPartition` | cmd/spiderw/cli/station.go:746-756 | every signal lies in exactly one of the N+1 bands |
| `SignalBands.IndexFallsAsSignalRises` | cmd/spiderw/cli/station.go:746-756 | a stronger signal never has the higher index |
| `SignalBands.BandsInhabitedExactlyWhen` | cmd/spiderw/cli/station.go:721-731 | no band is empty if and only if the thresholds strictly descend |

## Left out

- The bus itself: match-rule delivery, introspection XML, marshalling (an empty object path, which a device that never was a station reports, could not be sent).
- A bus call that takes effect although its reply is lost, and context cancellation of bus calls.
- Wall-clock time, and the order of handler goroutines across signals: nothing is claimed about either.
- The dispatcher's own wait group when the first registration races Close; only the handler group is claimed.
- client.go, agent.go, internal/core/agent.go, internal/core/signalagent.go and internal/connect/wiring.go are step systems over values, not classes, because the claims are about interleavings; aliasing of handles is by number.
- The signal-level and credentials callbacks themselves, Release, and panics inside callbacks.
- SignalRegistry.Bucket: allocates exactly the space it needs on append; the growth policy of Go slices, and so which earlier slice headers share memory, is not modelled.
- SignalRegistry.Registry.Add: identifiers do not wrap at 64 bits.
- Enumeration.SortByPath: an insertion into a sequence, not the in-place sort of the Go library; with distinct paths the result is the same.
- TreeRuns.LinksNameExactlyOne: Forget is called on exported objects only and the networks differ in name or type; when the links of the start resolve is `TreeFixtures.FixtureLinksResolveExactlyWhen`.
- AgentLiveness.EveryCallEnds: bus calls are taken to return; fairness is expressed as a bound on steps and an enabled step.
- AgentOutcomes.UnregisterOutcome: what an Unregister does, not the joined error it returns; the errors of RegisterAgent are not told apart either.
- SignalBands.Levels: an array of integers for the int16 slice; the conversion is explicit.
- TreeFixtures.Fixtures: what the daemon answers, the adapters' optional fields and their malformed mode list are parameters; the daemon flags that only change the reply of GetInfo are inside the first.
- LinkLimits.KnownNetworkFollowsEveryRunExactlyWhen: about trees as the mock has them, where links name exported known networks, open networks have none and network types make valid paths.
- ScanningSubscription.CarefulApScanningDiffersExactlyWhen: about a handler that no other device reaches; with others the condition is the one of ApScanningDiffersExactlyWhen.
- Subscriptions to State, Started, Connected, Hidden, AutoConnect and LastConnectedTime: same shape, a value with every change or one optional.
- The mock's adapters, daemon, basic service sets and SimpleConfiguration as classes; their calls would only add easy members. Adapters are in ObjectTree.
- ClientReads leaves out the readers of adapters, devices, known networks and basic service sets: same shape, fewer cases.
- ErrorChain leaves out the text of errors, operation names and details.
- Command line, output formatting, value enums beyond the two used, nil-receiver guards, test factories, logging.
