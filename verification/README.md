# Brezel control plane: models and proofs

Brezel runs microVM sandboxes. This project models three connected parts of its control plane in Dafny and
proves what they keep under every interleaving, failed write, lost reply and crash.

**Node fencing** (`Identifiers`, `NodeLedger`, `ReplayCache`, `Capability`, `NodeFencing`, `RouteAdmin`, `NodeRoutes`).
A node keeps a durable ledger of routes. Every assignment of a sandbox to an engine has a generation from one
increasing clock. Relay requests present a capability, take a lease on the route, match the context and consume the
capability's identifier once. `NodeFencing` is the whole data path as one state machine, restarts included.
`RouteAdmin` and `NodeRoutes` are the control path: idempotent route administration, and the controller's small
programs of remote calls, any of which may be lost.

**The embedded store** (`Records`, `AdmissionIndex`, `LifecycleHeads`, `RecoveryList`, `ScopedState`, `Store`,
`SandboxAdmission`).
Authoritative rows are shadowed by derived indexes that are maintained from row differences. Row-scoped transactions
see a slice of the state and must still keep the invariants of the whole.

**The lifecycle controller** (`Controller`, `ControllerSafety`, `ControllerRuns`, `ControllerOutcomes`, `Service`).
Service calls write durable intent under a lock, set an in-memory fence, call the backend without the lock and commit.
`Controller` is the machine of locked sections, backend moves, time and crashes; `Service` is the same sections written
as methods on mutable fields, each proved to be a step of that machine. `ControllerOutcomes` says, state by state, what
each section leaves behind and when it may happen at all.

## Where the code does less than it seems to

Two properties one would like to have are false. For each there is an input that breaks it and the exact condition
under which it holds.

- *A capability admits at most one operation.* The replay cache reads the clock before it takes its lock. A request that
  read a time short of the expiry, and then waits while another request that read a time at or past the expiry prunes
  the cache, is admitted a second time (`ReplayCache.OvertakenReadingReadmits`). Within one process a capability is
  admitted twice if and only if such an overtaking occurs while the cache has room
  (`ReplayCache.AdmittedTwiceIffOvertaken`); it never is across
  restarts (`NodeFencing.SecondAdmissionIsOvertaken`), and never if requests take the lock in the order of their readings
  (`NodeFencing.CapabilityAdmitsOnce`).
- *The lifecycle head is the last inserted surviving operation.* It is, as long as that operation was the last one
  inserted (`LifecycleHeads.LastInsertedIsHead`). Once a head is removed, the fallback goes by the rows' timestamps and
  not by insertion (`LifecycleHeads.FallbackIgnoresInsertionOrder`). Over any run the last surviving insertion is the head
  if and only if no head has been removed since the last insertion, or it was also the newest by its timestamps when a
  head was last removed (`LifecycleHeads.LastSurvivorIsHeadIff`).

Also worth knowing: a reconciliation of a sandbox that has lost its durable node assignment succeeds only if the node's
route is absent or half attached to the same engine; a parked or released route under its id blocks it
(`NodeRoutes.Reconcilable`, the condition in `NodeRoutes.ReconcileNodeRoute`).

By design, a resource that starts waiting again does not bring back its earlier operations. So a transaction leaves a
waiting resource's only operation of a kind off the recovery list if and only if it was the only one before and had no
head (`RecoveryList.SyncFindsTheOnlyOneIff`, `RecoveryList.ListAfterSync`); from its insertion on it stays listed while
the resource waits (`RecoveryList.RunFindsTheOnlyOne`), and a rebuild finds it again (`RecoveryList.ListAfterRebuild`).

## Assumptions

- Signatures, digests and base64 are ideal: only issued claims authenticate. Random identifiers and boot epochs are fresh.
- A write to the ledger file ends synced, lost before the rename or lost after it. A crash reloads what the file holds.
- A SQL transaction is atomic; failure leaves every table as it was.
- A create asked of the backend may land at any later time, after a crash or after its caller has given up, until the
  backend is asked for it by its sandbox and answers that there is none: a confirmed absence is final. This is what
  "reconciliation must confirm the engine resource or its absence" asks of the engine, and it cannot be dropped
  (`ControllerRuns.FinalAbsenceIsNeeded`). The backend names only resources whose create has landed, reports only
  non-terminal states for resources that exist, and resumes the same resource. A resource may vanish at any time.
- Clock readings under the service lock do not decrease.
- Map iteration order is arbitrary: loops over maps pick any element.

## Model

| member | source | states |
|---|---|---|
| Identifiers.ScopedKeyInjective | internal/store/store.go:59-61 | NUL-joined resource keys are equal exactly when project and resource are, if the project cannot hold the separator |
| Identifiers.IdempotencyKeyInjective | internal/store/store.go:63-65 | the same for the three parts of an idempotency key |
| Identifiers.SafeNamesGrow | internal/domain/validation.go:12-19 | safe names, built up a character at a time |
| ReplayCache.RootIsEarliest | internal/node/replay.go:84-97 | the root of an ordered heap expires no later than any entry |
| ReplayCache.Up | internal/node/replay.go:64-89 | sifting up restores heap order and permutes the entries |
| ReplayCache.Down | internal/node/replay.go:51-97 | sifting down restores heap order and permutes the entries |
| ReplayCache.Push | internal/node/replay.go:63-89 | pushing keeps heap order and adds exactly one entry |
| ReplayCache.Pop | internal/node/replay.go:51-97 | popping returns an earliest entry, keeps heap order and removes exactly that entry |
| ReplayCache.JtiExactly | internal/node/replay.go:37-44 | which identifiers are well formed, in both directions |
| ReplayCache.ConsumeExactly | internal/node/replay.go:37-66 | when a call is invalid, expired, replayed, refused for lack of room, or admitted, each in both directions |
| ReplayCache.ConsumeRemembers | internal/node/replay.go:46-66 | afterwards exactly the identifiers not expired at this reading are remembered, and an admitted one until its expiry |
| ReplayCache.Cache.Use | internal/node/replay.go:37-66 | heap and map together behave as a plain set of live identifiers: expired entries and only those are dropped, a live identifier is refused, a full cache refuses, otherwise the identifier is recorded |
| ReplayCache.Remembered | internal/node/replay.go:37-66 | after any run of calls an identifier is cached exactly when some call admitted it and no later call pruned with a reading at or past its expiry |
| ReplayCache.ReplayedIff | internal/node/replay.go:57-59 | in any run, a valid unexpired call is refused as a replay exactly when an earlier admission of the identifier has not been pruned |
| ReplayCache.AdmittedTwiceIffOvertaken | internal/node/replay.go:37-66 | one process admits a capability twice if and only if a request with an earlier reading is overtaken by one whose reading reached the expiry, and the cache has room when it gets the lock |
| ReplayCache.AdmittedOnceInOrder | internal/node/replay.go:37-66 | if requests take the lock in the order of their readings, no capability is admitted twice |
| ReplayCache.OvertakenReadingReadmits | internal/node/replay.go:37-66 | three concrete calls that admit one capability twice |
| NodeLedger.ValidateDiskState | internal/nodeledger/ledger.go:726-779 | the validation loop, in any order, accepts exactly the states in which every entry is valid, no two routes share a generation and no two unreleased routes share an engine or a sandbox |
| NodeLedger.AssignmentConflicts | internal/nodeledger/ledger.go:883-893 | the loop finds a conflict exactly when another unreleased route has the engine or the sandbox |
| NodeLedger.ProposalIsWellFormed | internal/nodeledger/ledger.go:298-378 | the conflict check is strong enough: a proposed state can fail validation only on the route limit, and only for a bind |
| NodeLedger.ProposalExtends | internal/nodeledger/ledger.go:298-418 | no mutation moves the clock back or gives an old generation a new assignment |
| NodeLedger.ProposalKeepsLeases | internal/nodeledger/ledger.go:381-418 | no mutation takes a leased route out of ready or draining, or off its generation |
| NodeLedger.UpdateKeepsInv | internal/nodeledger/ledger.go:593-662 | any mutation, with the durable write failing before or after the rename, keeps memory and file valid, the file at or ahead of memory, and every lease on a live route |
| NodeLedger.AcquireKeepsInv | internal/nodeledger/ledger.go:421-447 | taking a lease keeps the same invariant |
| NodeLedger.LiveReleaseSucceeds | internal/nodeledger/ledger.go:449-472 | returning a live lease never reaches an error branch |
| NodeLedger.AcquireExactly | internal/nodeledger/ledger.go:421-447 | a lease is granted if and only if the names are valid, the ledger open, and the route serves that sandbox at that generation and is ready, with room in the counter; then exactly that count rises by one, otherwise nothing changes |
| NodeLedger.AcquireRefusals | internal/nodeledger/ledger.go:421-447 | each refusal of a lease names the first check that failed |
| NodeLedger.ReleaseExactly | internal/nodeledger/ledger.go:449-472 | a lease is returned if and only if it is held on a live route; exactly that count falls by one |
| NodeLedger.CloseExactly | internal/nodeledger/ledger.go:247-266 | closing an open ledger is refused exactly while a lease is held, and changes nothing else |
| NodeLedger.FailedUpdate | internal/nodeledger/ledger.go:593-662 | a failed mutation leaves memory alone, and the file too unless the write failed after the rename; no mutation touches leases |
| NodeLedger.EngineIdsAre | internal/nodeledger/ledger.go:833-857 | every safe name can name an engine; nothing empty, spaced or overlong can |
| NodeLedger.ValidDiskExactly | internal/nodeledger/ledger.go:726-779 | what makes a ledger state valid, entry by entry and pair by pair |
| NodeLedger.BindExactly | internal/nodeledger/ledger.go:298-329 | when a bind succeeds, in both directions, and the entry and clock it leaves |
| NodeLedger.RebindExactly | internal/nodeledger/ledger.go:332-378 | when a rebind succeeds, in both directions; a parked route starts over under a fresh generation |
| NodeLedger.TransitionExactly | internal/nodeledger/ledger.go:381-418 | a transition succeeds if and only if it is one of seven edges from the expected state at the expected generation and, to leave draining for good, the last lease is back |
| NodeLedger.TouchExactly | internal/nodeledger/ledger.go:481-512 | when activity is recorded, in both directions; it does not go back |
| NodeLedger.RemoveExactly | internal/nodeledger/ledger.go:573-591 | exactly a released route at its generation is removed |
| NodeLedger.SwapRefusals | internal/nodeledger/ledger.go:332-418 | a compare-and-swap is refused for a missing route, then a stale generation, then another state |
| NodeLedger.ReopenKeepsInv | internal/nodeledger/ledger.go:166-245 | reloading the file after a crash keeps the invariant and never serves an older clock |
| NodeLedger.Open | internal/nodeledger/ledger.go:164-245 | a missing ledger is created empty; anything but a valid state of the current schema fails closed; an opened ledger is open, serves exactly its file, holds no lease and meets the invariant |
| NodeLedger.Ledger.CommitState | internal/nodeledger/ledger.go:593-662 | memory changes only after a valid state has been synced |
| NodeLedger.Ledger.BindRoute | internal/nodeledger/ledger.go:298-329 | binding does what the specified mutation does, in every error case too |
| NodeLedger.Ledger.RebindRoute | internal/nodeledger/ledger.go:332-378 | rebinding does what the specified mutation does |
| NodeLedger.Ledger.TransitionRoute | internal/nodeledger/ledger.go:381-418 | a transition does what the specified mutation does; a leased drain cannot finish |
| NodeLedger.Ledger.TouchRoute | internal/nodeledger/ledger.go:481-512 | touching does what the specified mutation does |
| NodeLedger.Ledger.RemoveRoute | internal/nodeledger/ledger.go:573-591 | removal does what the specified mutation does |
| NodeLedger.Ledger.AcquireOperation | internal/nodeledger/ledger.go:421-447 | grants a lease exactly when the route is ready for that sandbox and generation, and then adds exactly that lease |
| NodeLedger.Ledger.ReleaseOperation | internal/nodeledger/ledger.go:449-472 | leases are returned as specified |
| NodeLedger.Ledger.CloseLedger | internal/nodeledger/ledger.go:247-266 | closing is refused while a lease lives |
| Capability.IssuedVerifiesExactly | internal/node/capability.go:161-335 | an issued capability authenticates exactly within its window and matches exactly its own context |
| Capability.ClampedCapabilityWithinBinding | internal/node/relay_client.go:517-547 | the clamped lifetime keeps a capability within the authorization it acts under, up to the time between the client's two clock readings |
| Capability.IdentitiesAre | internal/node/capability.go:456-466 | every safe name is a valid identity; nothing empty, overlong, padded or with control characters is |
| Capability.IssueExactly | internal/node/capability.go:161-225 | an issued capability says what was asked for, from the second it was signed in, for exactly the time asked for |
| Capability.WellFormedRequestIsIssued | internal/node/capability.go:161-225 | a well-formed request for one to thirty whole seconds is granted |
| Capability.IssuedIsBounded | internal/node/capability.go:364-445 | whatever is issued lives at most thirty seconds and is bounded by what its operation needs and no more |
| Capability.AuthenticateExactly | internal/node/capability.go:253-308 | when a genuine token is accepted, in both directions, and which refusal comes first |
| Capability.MatchExactly | internal/node/capability.go:310-337 | valid claims match a context if and only if they agree with it in all nine respects |
| Capability.ClampExactly | internal/node/relay_client.go:517-531 | the clamped lifetime is the largest whole number of seconds within what remains, up to thirty |
| NodeFencing.StepKeepsInv | internal/node/relay_server.go:588-677 | every step of the node, restarts included, keeps leases counted per request, requests on the route and engine they were given, and the history of admissions consistent |
| NodeFencing.RunExtends | internal/nodeledger/ledger.go:166-245 | over any run the served ledger only extends: the clock never goes back and no old generation changes hands |
| NodeFencing.GenerationClockNeverReturns | internal/nodeledger/ledger.go:298-378 | the observed generation clock never goes backwards, whatever writes fail and whenever the process is lost |
| NodeFencing.GenerationNamesOneAssignment | internal/nodeledger/ledger.go:298-378 | a generation observed anywhere in a run names one route, project, sandbox and, until release, one engine |
| NodeFencing.GenerationMovesOn | internal/nodeledger/ledger.go:381-418 | within one generation a route only moves on: attaching is left for good, a parked route is never served again, release is final, activity does not go back |
| NodeFencing.ResolveReports | internal/node/relay_server.go:207-218 | a lookup reports the route as the ledger has it, under the running epoch |
| NodeFencing.IssueNeedsReadyRoute | internal/node/relay_client.go:477-547 | a capability is issued only on a lookup that saw the authorized route ready at the authorized generation, and names exactly that |
| NodeFencing.AuthenticationNeeds | internal/node/relay_server.go:588-617 | what a request must show to be let in |
| NodeFencing.StampNeeds | internal/node/relay_server.go:619-647 | a request reaches the replay cache only if its claims agree with the leased route and the body it carries |
| NodeFencing.RestartLeaves | internal/node/relay_server.go:220-226 | a restart serves the file under a new epoch, with no lease, request or cached identifier, and not draining |
| NodeFencing.AcquireLeaves | internal/node/relay_server.go:619-640 | a request goes on with the ledger's own entry exactly if the lease is granted; otherwise it is gone and nothing changed |
| NodeFencing.UseLeaves | internal/node/relay_server.go:641-656 | a request runs exactly if the cache admits it, and then the admission is on record |
| NodeFencing.DrainingLeasesOnlyFall | internal/nodeledger/ledger.go:421-447 | over any run, while a route stays draining at one generation its lease count never rises |
| NodeFencing.DrainEndsWithLastRequest | internal/nodeledger/ledger.go:381-418 | in every reachable state a draining route can be parked if and only if no request in flight holds it |
| NodeFencing.DrainingNodeAdmitsNoRequest | internal/node/relay_server.go:149-169 | once a node drains, no new request gets in until it restarts |
| NodeFencing.OperationIsFenced | internal/node/relay_server.go:588-677 | an operation in flight stands on a ready or draining route that has the generation the API authorized and the operation's engine |
| NodeFencing.OperationRunsOnAuthorizedEngine | internal/node/relay_client.go:477-547 | its engine is the engine of the authorized generation wherever in the run that generation is served |
| NodeFencing.OperationHoldsItsRoute | internal/nodeledger/ledger.go:381-477 | while it is in flight no mutation takes its route to standby, released or another generation, the ledger does not close, and returning its lease cannot fail |
| NodeFencing.RunningBindingIsCurrent | internal/node/relay_server.go:648-669 | a running operation's binding passes the currency check until it ends, and nothing else passes it |
| NodeFencing.SecondAdmissionIsOvertaken | internal/node/relay_server.go:603-647 | no capability is admitted by two boots; two admissions in one boot prove an overtaking |
| NodeFencing.CapabilityAdmitsOnce | internal/node/relay_server.go:603-647 | with readings in lock order no capability admits two operations in any run, restarts included |
| RouteAdmin.MoveReplyIsExact | internal/node/route_admin_server.go:173-202 | whatever runs between its sections, an answered transition names the requested assignment and generation in the target state |
| RouteAdmin.Admin.ServeBind | internal/node/route_admin_server.go:130-153 | the bind handler answers as specified, replaying a bind whose reply was lost |
| RouteAdmin.Admin.ServeMove | internal/node/route_admin_server.go:155-202 | the transition handler answers as specified, replaying a transition already made |
| RouteAdmin.Admin.ServeRebind | internal/node/route_admin_server.go:204-236 | the rebind handler answers as specified |
| RouteAdmin.Admin.ServeRemove | internal/node/route_admin_server.go:238-272 | the removal handler answers as specified |
| RouteAdmin.ServeIsLocal | internal/node/route_admin_server.go:121-272 | on a node with no conflicting assignment every request of a sandbox's controller is a step of a one-route machine or a failed write, and touches no other route |
| RouteAdmin.RetryIsReplayed | internal/node/route_admin_server.go:139-202 | a bind or transition repeated after a lost reply changes nothing and is answered with the same route and generation |
| RouteAdmin.ServeIsGuarded | internal/node/route_admin_server.go:121-272 | no request, whoever sends it, changes a route but the one it names; changing it needs its own sandbox, its present generation and the expected state; answers are about that sandbox |
| RouteAdmin.StrangersAreRefused | internal/node/route_admin_server.go:173-272 | a request about another sandbox is refused as if the route were missing, one about another generation as stale |
| RouteAdmin.MoveServed | internal/node/route_admin_server.go:155-202 | the state each action ends in and the state it starts from; a replay changes nothing |
| RouteAdmin.BindServed | internal/node/route_admin_server.go:130-153 | a bind is new, or is answered with the very assignment it asked for while that is attaching or ready |
| RouteAdmin.RebindServed | internal/node/route_admin_server.go:204-236 | a rebind starts a parked route over under a fresh generation |
| RouteAdmin.RemoveServed | internal/node/route_admin_server.go:238-272 | only a released route is removed, and then it is gone |
| NodeRoutes.RepliesAreAccepted | internal/node/route_admin_client.go:111-199 | an honest node's replies always pass the client's checks |
| NodeRoutes.BelievedReply | internal/node/route_admin_client.go:111-199 | a reply the client believes is about the route it asked for, at the generation and in the state it asked for |
| NodeRoutes.AdoptedAssignment | internal/service/node_routes.go:357-378 | an assignment is adopted only from a reply about this sandbox, exactly as it says, and never behind the one on record |
| NodeRoutes.Client.Call | internal/node/route_admin_client.go:201-245 | a remote call has the machine's effect or, when lost, an error with or without that effect, never mistaken for a missing route |
| NodeRoutes.ResolveNodeRoute | internal/service/node_routes.go:343-368 | the lookup succeeds exactly when the route continues the durable assignment, and reports absence exactly when the route is absent |
| NodeRoutes.AttachNodeRoute | internal/service/node_routes.go:14-42 | ends ready with the assignment equal to the ledger's; succeeds without faults exactly when the route is absent or half attached to the same engine |
| NodeRoutes.PrepareNodeRoutePause | internal/service/node_routes.go:142-178 | ends draining or in standby at the same generation; succeeds without faults from every state but released |
| NodeRoutes.CompleteNodeRouteStandby | internal/service/node_routes.go:180-206 | ends in standby at the same generation; succeeds without faults exactly from draining or standby |
| NodeRoutes.ResumeNodeRoute | internal/service/node_routes.go:208-257 | terminates ready; an attach under way keeps its generation, a parked route gets a fresh one; exact condition of success |
| NodeRoutes.RemoveNodeRoute | internal/service/node_routes.go:259-313 | ends with the route absent and the assignment cleared, without faults from every state |
| NodeRoutes.PlaceNodeRoute | internal/service/node_routes.go:48-86 | settles an unreleased route as the assignment, allocating at most one generation |
| NodeRoutes.ReconcileNodeRoute | internal/service/node_routes.go:44-99 | from every ledger state ends ready or in standby as requested with the assignment equal to the ledger's; exact condition of success; other routes untouched |
| NodeRoutes.ReconcileAgain | internal/service/node_routes.go:44-99 | cut off anywhere by lost calls, replies or writes and run again from the same durable assignment, reconciliation arrives |
| Records.Validate | internal/store/store.go:717-791 | the validation loops accept exactly the states whose rows carry their own keys, whose node assignments are complete or absent and free of separators, and whose claims name an operation of their project, kind and key |
| Records.StoredKeysAreDistinct | internal/store/store.go:59-61 | in a valid state no two rows of a kind have the same stored key |
| Records.AssignmentIsWhole | internal/store/store.go:726-737 | in a valid state a sandbox has its whole node assignment or none of it, free of separators |
| Records.ClaimStandsForOperation | internal/store/store.go:760-791 | in a valid state every claim stands for an operation of its own project, kind and key, with no digest or a full one |
| Records.EventIsWhereItSays | internal/store/store.go:692-715 | in a valid state an event is where it says it is, with a kind and a time |
| AdmissionIndex.IndexesDetermined | internal/store/sqlite_admission.go:561-617 | the rows determine the indexes up to zero counters |
| AdmissionIndex.SandboxCountersMean | internal/store/sqlite_admission.go:400-490 | the sandbox counters are the numbers of sandboxes that are not terminal, in all and per project |
| AdmissionIndex.WorkspaceCounterMeans | internal/store/sqlite_admission.go:400-490 | the workspace counter is the number of workspaces neither deleted nor failed |
| AdmissionIndex.EnvironmentCounterMeans | internal/store/sqlite_admission.go:400-490 | the environment counter is the number of environments |
| AdmissionIndex.MountsMean | internal/store/sqlite_admission.go:492-541 | the mount index holds for each mounted workspace the one sandbox that mounts it and is not terminal |
| AdmissionIndex.Tables.constructor | internal/store/sqlite_admission.go:561-567 | empty tables match no rows |
| AdmissionIndex.Tables.ChangeCharges | internal/store/sqlite_admission.go:400-490 | exactly the counters a row is charged to change |
| AdmissionIndex.Tables.RemoveRow | internal/store/sqlite_admission.go:492-514 | removing a row leaves indexes that match the remaining rows and no counter goes below zero |
| AdmissionIndex.Tables.InsertMounts | internal/store/sqlite_admission.go:534-538 | the mount inserts succeed exactly when no workspace is mounted twice |
| AdmissionIndex.Tables.AddRow | internal/store/sqlite_admission.go:516-541 | adding a row fails exactly on a workspace mounted twice and otherwise matches the larger set of rows |
| AdmissionIndex.Tables.ReplaceRows | internal/store/sqlite.go:717-740 | removing all changed rows first and then adding, each in any order, fails only if the outcome mounts a workspace twice: handoffs never trip the uniqueness key |
| AdmissionIndex.Tables.Sync | internal/store/sqlite.go:717-740 | incremental maintenance ends with indexes that match the new rows |
| AdmissionIndex.Tables.Rebuild | internal/store/sqlite_admission.go:561-617 | a rebuild matches the rows and succeeds exactly when no workspace is mounted twice |
| LifecycleHeads.NewestExists | internal/store/sqlite_lifecycle_heads.go:123-137 | every non-empty family has one newest operation under the update, creation and id order |
| LifecycleHeads.FollowsSound | internal/store/sqlite_lifecycle_heads.go:155-222 | after any transaction every head names an existing operation of exactly its owner and family, and the owner is eligible |
| LifecycleHeads.RebuiltSound | internal/store/sqlite_lifecycle_heads.go:139-153 | the same after a rebuild |
| LifecycleHeads.LastInsertedIsHead | internal/store/sqlite_lifecycle_heads.go:179-199 | over any run, the operation last inserted into a family is its head while it survives and the owner stays eligible, whatever the clocks say |
| LifecycleHeads.RemovedHeadFallsBack | internal/store/sqlite_lifecycle_heads.go:303-315 | in one transaction, after a head is removed a survivor is promoted if and only if its row is the newest |
| LifecycleHeads.HeadWithoutRemoval | internal/store/sqlite_lifecycle_heads.go:179-199 | over any run, until a head is removed the head is the newest of the operations inserted last |
| LifecycleHeads.HeadSinceRemoval | internal/store/sqlite_lifecycle_heads.go:303-345 | over any run, since a head was last removed the head is the operation that was then newest by its clocks |
| LifecycleHeads.LastSurvivorIsHeadIff | internal/store/sqlite_lifecycle_heads.go:179-345 | over any run, the last surviving insertion is the head if and only if no head was removed since the last insertion or it was the newest by its clocks at the latest removal |
| LifecycleHeads.FallbackIgnoresInsertionOrder | internal/store/sqlite_lifecycle_heads.go:303-345 | a concrete run in which an older insertion is promoted over a younger one |
| LifecycleHeads.Table.Cascade | internal/store/sqlite_lifecycle_heads.go:62-66 | deleting an operation removes exactly the heads that name it |
| LifecycleHeads.Table.DeleteOwnerHeads | internal/store/sqlite_lifecycle_heads.go:393-396 | exactly one owner's heads are removed |
| LifecycleHeads.Table.SelectNewest | internal/store/sqlite_lifecycle_heads.go:317-345 | the scan, in any order, finds the newest operation of a family |
| LifecycleHeads.Table.SelectAll | internal/store/sqlite_lifecycle_heads.go:317-345 | the scan, in any order, finds the newest operation of every family |
| LifecycleHeads.Table.Upsert | internal/store/sqlite_lifecycle_heads.go:247-282 | an eligible owner's head becomes the candidate unless the current head is newer; an ineligible owner only loses heads |
| LifecycleHeads.Table.Replace | internal/store/sqlite_lifecycle_heads.go:284-301 | an eligible owner's head becomes the candidate; an ineligible owner only loses heads |
| LifecycleHeads.Table.Refresh | internal/store/sqlite_lifecycle_heads.go:303-315 | an eligible owner's head becomes the family's newest operation |
| LifecycleHeads.Table.Collect | internal/store/sqlite_lifecycle_heads.go:155-189 | in any order of changes, finds exactly the families that need a fallback and each family's newest arrival |
| LifecycleHeads.Table.Sync | internal/store/sqlite_lifecycle_heads.go:155-222 | the four passes, each in any order, give every family the specified head |
| LifecycleHeads.Table.Rebuild | internal/store/sqlite_lifecycle_heads.go:139-153 | a rebuild gives every family with an eligible owner its newest operation and nothing else |
| LifecycleHeads.Table.ListForReconcile | internal/store/sqlite.go:466-503 | lists exactly the unfinished heads; the inconsistent-index error is unreachable on a sound index; which operations these are is `RecoveryList.ListWork`, `ListAfterRebuild` and `ListAfterSync` |
| RecoveryList.KindsApart | internal/store/sqlite_lifecycle_heads.go:100-121 | no two operation kinds read alike, whatever the resource is called |
| RecoveryList.HeadKeyIs | internal/store/sqlite_lifecycle_heads.go:100-121 | an operation competes for a head exactly if its kind is one of seven spelled-out kinds on its own resource |
| RecoveryList.OtherKindsHaveNone | internal/store/sqlite_lifecycle_heads.go:117-119 | an operation of any other kind has no head |
| RecoveryList.WaitsIs | internal/store/sqlite_lifecycle_heads.go:347-390 | an owner is eligible exactly if it is a sandbox that is not terminal or a workspace neither ready nor terminal |
| RecoveryList.RebuildFindsTheLatest | internal/store/sqlite_lifecycle_heads.go:139-153 | after a rebuild a waiting resource's latest operation of each kind, by update, creation and id, is its head |
| RecoveryList.SyncFindsTheOnlyOneIff | internal/store/sqlite_lifecycle_heads.go:155-222 | after a transaction a waiting resource's only operation of a kind is its head if and only if the line had a head, or the operation joined, or another one left |
| RecoveryList.RunFindsTheOnlyOne | internal/store/sqlite_lifecycle_heads.go:155-222 | over any run a resource's only operation of a kind is its head as long as the resource waits, from its insertion on |
| RecoveryList.KindsDoNotInterfere | internal/store/sqlite_lifecycle_heads.go:155-222 | an operation of one kind never displaces the head of another kind on the same resource |
| RecoveryList.ListWork | internal/store/sqlite.go:466-503 | the list holds only unfinished operations of the seven kinds on waiting resources, and every unfinished head |
| RecoveryList.ListAfterRebuild | internal/store/sqlite.go:466-503 | after a rebuild the list misses no waiting resource's latest unfinished operation and holds nothing else |
| RecoveryList.ListAfterSync | internal/store/sqlite.go:466-503 | after a transaction the list holds nothing else, and exactly which only operations it misses |
| ScopedState.SliceValid | internal/store/sqlite_scoped.go:199-201 | a slice of a valid state is valid, so the load-time validation never fails |
| ScopedState.CommitFrame | internal/store/sqlite_scoped.go:242-349 | undeclared rows, all claims and all events stay; operations keep their identity; new claims and events are declared ones |
| ScopedState.SliceExactly | internal/store/sqlite_scoped.go:142-214 | what a callback sees: declared rows and claims, each claim's operation and its resource, and the last event of each declared stream |
| ScopedState.OperationKeepsIdentity | internal/store/sqlite_scoped.go:261-280 | an operation keeps its project, id, kind, request key and creation time |
| ScopedState.NewClaimIsUnambiguous | internal/store/sqlite_scoped.go:288-300 | no two claims a transaction adds share a stored key |
| ScopedState.CommitValid | internal/store/sqlite_scoped.go:261-300 | the merged state is valid: every claim, loaded or not, still names its operation |
| ScopedState.CommitGapFree | internal/store/sqlite_scoped.go:301-347 | every event stream stays gap-free from 1 |
| ScopedState.AppendIsLocal | internal/service/service.go:2167-2177 | appending an event on a slice takes the sequence it would take on the whole state |
| ScopedState.EditsAreLocal | internal/store/sqlite_scoped.go:19-64 | edits within the scope do to the whole state what they do to the slice |
| ScopedState.LoadMutationState | internal/store/sqlite_scoped.go:142-214 | the loading loops give exactly the declared rows, what declared claims replay, and the tails of declared streams |
| ScopedState.RowsAreDeclared | internal/store/sqlite_scoped.go:243-280 | the loops accept exactly declared row changes that keep operation identities |
| ScopedState.ClaimsAreKept | internal/store/sqlite_scoped.go:288-300 | the loops accept exactly unchanged claims and new declared ones |
| ScopedState.StreamContinues | internal/store/sqlite_scoped.go:329-347 | the count accepts exactly new events that continue the stream without a gap |
| ScopedState.HistoryIsKept | internal/store/sqlite_scoped.go:301-347 | the loops accept exactly unchanged history with contiguous declared additions |
| ScopedState.ValidateScopedChanges | internal/store/sqlite_scoped.go:242-349 | all checks together decide the scoped-change rule |
| ScopedState.AppendEvent | internal/service/service.go:2167-2177 | the sequence loop, in any order, takes the next sequence of the stream |
| Store.SqlStore.constructor | internal/store/sqlite.go:176-246 | opening rebuilds the admission indexes and keeps or rebuilds the recovery index, ending consistent |
| Store.SqlStore.WriteRows | internal/store/sqlite.go:676-713 | the differing rows are written, in any order, and deleted operations take their heads along |
| Store.SqlStore.SyncEncodedState | internal/store/sqlite.go:662-780 | tables and all indexes follow the change; the only failure is a workspace mounted twice |
| Store.SqlStore.Update | internal/store/sqlite.go:339-376 | commits exactly when the callback returns a valid state that mounts no workspace twice; otherwise nothing changes; always consistent |
| Store.SqlStore.UpdateRows | internal/store/sqlite_scoped.go:19-64 | commits exactly when the slice it returns is valid and declared and the merged rows mount no workspace twice; the outcome is the merge; always consistent |
| Store.SqlStore.RecordSandboxActivity | internal/store/sqlite.go:505-544 | a running or parked sandbox becomes active at the later of the two times, with its revision raised and its standby deadline started over; any other row stays; every index keeps matching |
| Store.SqlStore.AppendSandboxEvent | internal/store/sqlite.go:546-594 | appends exactly one event, at the next sequence of an existing sandbox's stream and with that sandbox's state, if and only if it is well formed |
| Store.ActivityKeepsConsistent | internal/store/store.go:673-690 | recorded activity changes nothing any index is derived from |
| Store.ActivityExactly | internal/store/store.go:673-690 | recorded activity is the later of the old and the new time; deadline, revision and update time follow; nothing else changes |
| Store.HistoryActivity | internal/store/sqlite.go:505-544 | over any stretch of recordings, appends and reopenings, whatever times they carry, a row's activity never goes back |
| Store.AppendExactly | internal/store/sqlite.go:546-594 | an appended event is the next of its stream and carries its sandbox's state |
| Store.BecomesDetermined | internal/store/sqlite.go:662-780 | a transaction's outcome is determined: same state, mounts, heads and counter readings |
| Store.UpdateRowsRefinesUpdate | internal/store/sqlite_scoped.go:19-64 | whenever a row-scoped transaction with local edits commits, the whole-state transaction commits with the same outcome |
| Store.Perform | internal/store/sqlite.go:339-594 | one transaction of any kind, committed or refused, or a reopening, leaves the tables as specified and every index consistent |
| Store.PerformAll | internal/store/sqlite.go:662-780 | after every transaction of any sequence the tables are as the transactions say, every index is consistent, counters and mounts are what a rebuild from the rows gives, no counter below zero, and the whole history is a run of the recovery index |
| Store.CompareWithRebuild | internal/store/sqlite_admission.go:561-617 | a rebuild of a consistent store's rows gives the mounts and counter readings the store has |
| Store.HistoryValid | internal/store/store.go:717-791 | over any sequence of transactions the state stays valid |
| Store.HistoryOfHeads | internal/store/sqlite.go:714-716 | every sequence of transactions is a run of the recovery index |
| SandboxAdmission.DecisionDetermined | internal/service/sandbox_admission.go:38-85 | two snapshots that tell the truth about one state lead to one decision |
| SandboxAdmission.DecideAdmission | internal/service/sandbox_admission.go:38-85 | the loops compute the specified decision, and it is right about every state the snapshot describes: an admission if and only if the tables meet the create's every need, otherwise the first need not met |
| SandboxAdmission.QueriesAre | internal/store/sqlite_admission.go:45-70 | which queries are refused, in both directions |
| SandboxAdmission.DecisionExactly | internal/service/sandbox_admission.go:37-84 | for every truthful snapshot a create is admitted if and only if the tables meet its every need; an admission hands on the resolved environment, checkpoint and backend names in order; a refusal names the first need not met |
| SandboxAdmission.ObstacleExactly | internal/service/sandbox_admission.go:70-83 | the first workspace that cannot be mounted is reported, as missing, not ready or attached |
| SandboxAdmission.ReadDependencies | internal/store/sqlite_admission.go:103-130 | the lookups find exactly the connectors, workspaces and attachments of the query |
| SandboxAdmission.ReadIndexed | internal/store/sqlite_admission.go:45-135 | the indexed read describes the state and refuses exactly malformed queries |
| SandboxAdmission.ScanSandboxes | internal/service/sandbox_admission.go:99-111 | the scan counts exactly the active sandboxes and collects exactly the attached workspaces |
| SandboxAdmission.ReadFallback | internal/service/sandbox_admission.go:87-135 | the full scan describes the state |
| SandboxAdmission.AdmitBothWays | internal/service/sandbox_admission.go:14-85 | in every consistent store both reads give the same decision, and it is an admission if and only if the tables meet the create's every need |
| SandboxAdmission.HistoryKeepsClaim | internal/store/sqlite_scoped.go:288-300 | over any sequence of transactions a claim stays as it is, unless a whole-state transaction changes it |
| SandboxAdmission.CreateIsAdmittedOnce | internal/service/sandbox_admission.go:37-42 | once a create claim is durable, then after any further transactions the same request replays the claimed operation, another conflicts, and none is admitted again |
| SandboxAdmission.CreateAnswersAgree | internal/service/sandbox_admission.go:14-42 | any two answers to creates with one key name the same operation or conflict, and equal requests fare alike |
| ControllerSafety.WriteKeepsInv | internal/service/service.go:1593-1641 | a legal durable write keeps the controller's whole invariant |
| ControllerSafety.FenceKeepsInv | internal/service/service.go:1558-1561 | taking the fence keeps it |
| ControllerSafety.UnfenceKeepsInv | internal/service/service.go:1565-1568 | giving the fence back keeps it |
| ControllerSafety.InsertKeepsInv | internal/service/service.go:437-498 | admitting a new sandbox keeps it |
| ControllerSafety.CrashKeepsInv | internal/service/service.go:1140-1146 | losing all in-memory state, with backend creates still in flight, keeps it |
| ControllerSafety.BackendKeepsInv | internal/service/service.go:496-543 | a create that lands late or is declined, and a resource that vanishes, keep it |
| ControllerSafety.AddGuestKeepsInv | internal/service/guest.go:237-311 | admitting a guest operation keeps it |
| ControllerSafety.RemoveGuestKeepsInv | internal/service/guest.go:285-309 | ending a guest operation keeps it |
| ControllerRuns.CreationKeepsInv | internal/service/service.go:367-599 | every section of a create and every retry, under every backend outcome and with the create landing whenever it may, keeps the invariant and only moves rows to later versions |
| ControllerRuns.ChangeKeepsInv | internal/service/service.go:1522-1641 | the same for pause, resume, automatic pause, deletion, checkpoint and cleanup |
| ControllerRuns.GuestKeepsInv | internal/service/guest.go:237-311 | the same for guest operations |
| ControllerRuns.LookKeepsInv | internal/service/service.go:634-686 | the same for reading a sandbox, expiry included |
| ControllerRuns.ObserveKeepsInv | internal/service/service.go:1126-1332 | the same for reconciliation and the repairs it starts |
| ControllerRuns.SpaceKeepsInv | internal/service/workspace.go:172-371 | the same for workspaces |
| ControllerRuns.StepKeepsInv | internal/service/service.go:367-2041 | every step keeps the invariant and rewrites rows only legally |
| ControllerRuns.FenceHasOneOwner | internal/service/service.go:1534-1567 | in every reachable state a fence has exactly one owner, no guests behind it, and the row its owner started from |
| ControllerRuns.RevisionsIdentifyRows | internal/service/service.go:1334-1340 | over any run a changed row has a higher revision, so equal revisions mean equal rows |
| ControllerRuns.ObserverCheckIsExact | internal/service/service.go:1180-1196 | if an observer's revision check passes, the whole row is the one it observed |
| ControllerRuns.SingleAttachment | internal/service/sandbox_admission.go:70-83 | in every reachable state at most one non-terminal sandbox references a workspace |
| ControllerRuns.BackendSingleWriter | internal/service/sandbox_admission.go:70-83 | no two sandboxes that the backend runs, or may still start after a crash or a lost reply, mount the same workspace |
| ControllerRuns.FinalAbsenceIsNeeded | internal/service/service.go:1807-1820 | were a create that may still land reported absent to a cleanup, two sandboxes could write to one workspace |
| ControllerRuns.DeletedWorkspaceIsUnmounted | internal/service/workspace.go:172-371 | from the moment the decision to delete a workspace is durable, and ever after, no non-terminal sandbox mounts it and the backend neither runs nor may start one that does |
| ControllerRuns.DeletingTaskHasIntent | internal/service/workspace.go:254-371 | a task that deletes a workspace acts after that moment |
| ControllerRuns.TerminalIsFinal | internal/service/service.go:1593-1641 | terminal rows never change again |
| ControllerRuns.CleanupIsFinal | internal/service/service.go:1722-1880 | once cleanup is decided the sandbox is never running or standby again and admits no guest operation |
| ControllerRuns.CleanupEndsInItsTarget | internal/service/service.go:1845-1880 | a sandbox under cleanup becomes terminal only in the target it had |
| ControllerRuns.OneCreatePerClaim | internal/service/service.go:399-485 | over retries and crashes the backend is asked to create at most once per project and key, and the claim names the same operation, digest and sandbox ever after |
| ControllerRuns.CreateAnswersAgree | internal/service/service.go:399-416 | all create calls with one key, first ones and retries alike, are answered with one operation or a conflict; equal requests are answered alike, and of two differing ones, unless the claim has no digest, at least one is refused |
| ControllerRuns.RetryIsAnsweredAlike | internal/service/sandbox_admission.go:37-42 | from the moment a claim is made, every call with its digest is answered with its operation and, unless it has none, every other is refused |
| ControllerRuns.AutoStandbyWaits | internal/service/service.go:1458-1520 | automatic standby begins no earlier than idle plus grace after the latest guest start or end of the process, recorded or not |
| ControllerRuns.ActivityNeverGoesBack | internal/service/service.go:1643-1692 | recorded activity never moves backwards |
| ControllerRuns.QuotasHold | internal/service/sandbox_admission.go:44-49 | active sandboxes stay within both limits, and the guest counter equals the outstanding operations and stays within its limit |
| ControllerOutcomes.CreateLeaves | internal/service/service.go:437-498 | the row, claim and fence a create starts with |
| ControllerOutcomes.CreateExactly | internal/service/sandbox_admission.go:44-83 | when a create is let in, in both directions |
| ControllerOutcomes.CreateNeeds | internal/service/sandbox_admission.go:44-83 | below both limits, and only with ready workspaces that no live sandbox mounts |
| ControllerOutcomes.RetryLeaves | internal/service/service.go:399-416 | a retry is answered from its claim and changes nothing else |
| ControllerOutcomes.CreateReturnLeaves | internal/service/service.go:500-560 | a refused create ends failed, an unconfirmed one unknown, a confirmed one goes on to its route |
| ControllerOutcomes.AttachReturnLeaves | internal/service/service.go:556-599 | the created sandbox is on record with its resource and route, or as unknown |
| ControllerOutcomes.MayBeginExactly | internal/service/service.go:1534-1550 | when a pause, resume, automatic pause or deletion may begin, in both directions |
| ControllerOutcomes.BeginLeaves | internal/service/service.go:1593-1617 | the durable intent of each change, and the fence |
| ControllerOutcomes.AutoPauseNeeds | internal/service/service.go:1458-1520 | an automatic pause waits for idle plus grace, in seconds, after the latest activity known |
| ControllerOutcomes.ChangeLeaves | internal/service/service.go:1619-1710 | a confirmed pause leaves standby with its activity as it was, a resume running and active now, a deletion deleted; an unconfirmed change leaves unknown with its failure |
| ControllerOutcomes.AcquireNeeds | internal/service/guest.go:246-262 | when a guest operation may start, in both directions |
| ControllerOutcomes.PausedTakesNoGuest | internal/service/guest.go:256-258 | straight after a successful pause a sandbox that does not resume by itself takes no guest |
| ControllerOutcomes.ResumedTakesGuests | internal/service/guest.go:256-258 | after a successful resume it does, if nothing else stands in the way |
| ControllerOutcomes.AcquireLeaves | internal/service/guest.go:263-283 | the start of a guest operation is on record, durably where standby is on |
| ControllerOutcomes.ReleaseLeaves | internal/service/guest.go:285-309 | its end is on record in memory in any case, and in the row if the store lets it |
| ControllerOutcomes.BaselineLeaves | internal/service/service.go:1438-1520 | a sandbox that was never active gets its first time on record |
| ControllerOutcomes.CleaningExactly | internal/service/service.go:1754-1775 | when a cleanup may begin, in both directions |
| ControllerOutcomes.CleaningLeaves | internal/service/service.go:1779-1880 | a confirmed cleanup ends in the state it was decided for, an unconfirmed one is unknown and written only if that is news |
| ControllerOutcomes.ExpireExactly | internal/service/service.go:1722-1748 | when expiry is decided, in both directions; guests do not hold it up |
| ControllerOutcomes.ExpireLeaves | internal/service/service.go:1722-1748 | the row expiry leaves: deleting, with cleanup intent expired |
| ControllerOutcomes.LookLeaves | internal/service/service.go:634-686 | a missing resource fails the sandbox, an unanswered question makes it unknown, a reported state is taken over |
| ControllerOutcomes.LookCleanupLeaves | internal/service/service.go:1973-2011 | a read cleans up a sandbox to be removed on the spot and records the outcome |
| ControllerOutcomes.UnmovedExactly | internal/service/service.go:1242-1250 | when an observer may write, in both directions |
| ControllerOutcomes.ObserveExactly | internal/service/service.go:1126-1170 | when an observer starts, in both directions |
| ControllerOutcomes.ObserveSeenLeaves | internal/service/service.go:1287-1331 | an observation takes over what was seen and nothing else, and leaves a row that already says so |
| ControllerOutcomes.ObserveUnknownLeaves | internal/service/service.go:1358-1390 | the same when the backend could not be asked |
| ControllerOutcomes.BeginRoutingLeaves | internal/service/service.go:1256-1260 | a route repair starts under the fence with the row as it is |
| ControllerOutcomes.RoutingLeaves | internal/service/service.go:1260-1331 | a route repair takes over what was seen and the route it got, or leaves the sandbox unknown |
| ControllerOutcomes.ForgettingLeaves | internal/service/service.go:1882-1971 | a resource that stayed away fails its sandbox |
| ControllerOutcomes.CrashLeaves | internal/service/service.go:128-167 | a crash forgets memory and keeps what was durable and what the backend may still do |
| ControllerOutcomes.CheckpointExactly | internal/service/service.go:835-939 | a checkpoint is taken of a running sandbox nobody is working on, and leaves its row as it was |
| ControllerOutcomes.WorkspaceLeaves | internal/service/workspace.go:254-371 | how a workspace ends for each answer of the backend, being removed or not |
| ControllerOutcomes.CreateWorkspaceLeaves | internal/service/workspace.go:18-137 | a new workspace starts out being prepared and takes the backend's word for the rest |
| ControllerOutcomes.WorkspaceReturnsLeaves | internal/service/workspace.go:254-371 | reconciliation writes a workspace only if it is still the row it looked at and not terminal |
| ControllerOutcomes.DeleteWorkspaceLeaves | internal/service/workspace.go:172-227 | a deletion is decided only of a workspace no live sandbox mounts, and on record before the backend is asked |
| Service.Service.constructor | internal/service/service.go:128-167 | a new controller starts the machine's runs and meets its invariant |
| Service.Service.BeginTransition | internal/service/service.go:1593-1617 | begins exactly when the guards and the store allow, as one step of the machine; the row carries the intent of this very change, and the caller holds the only fence on a sandbox without guests |
| Service.Service.FinishTransition | internal/service/service.go:1565-1577 | finds its row as it was left, gives the fence back and writes exactly the outcome: standby, running or deleted if confirmed, unknown if not; with a truthful backend this is one step of the machine and keeps its invariant |
| Service.Service.AcquireGuestOperation | internal/service/guest.go:237-283 | admits exactly when the guards allow, as one step; the caller works on an unfenced sandbox nobody decided to remove, its start is durable, and the project's counter is the number outstanding and within its limit |
| Service.Service.ReleaseGuestOperation | internal/service/guest.go:285-309 | one step; whether or not the record is saved, the sandbox counts as active now and no automatic pause can begin |
| Service.Service.BeginExpiration | internal/service/service.go:1722-1748 | one step exactly when the guards and the store allow: an expired, unfenced sandbox without cleanup intent gets the intent to expire and nothing else |
| Service.Service.BeginCleanup | internal/service/service.go:1754-1775 | one step exactly when the guards allow: the caller holds the only fence on a sandbox with durable cleanup intent and no guests |
| Service.Service.FinishCleanup | internal/service/service.go:1779-1805 | a row that is gone, terminal, moved on or differently intended is never touched; in a reachable state the row is the one the cleanup began with and ends in its target or unknown; with a truthful backend the call is one step and keeps the invariant |
| Service.Service.CommitObservation | internal/service/service.go:1233-1331 | writes exactly when the row is unmoved, open, unfenced and unused, and exactly what was seen; in a reachable state what it writes over is the very row it looked at; with a truthful backend the call is one step |

## Left out

- HTTP routing, JSON and base64 coding, WebSocket bridging, header filtering, TLS, file permissions and locks, schema
  migration.
- The relay's in-flight semaphore and request body bounds: they refuse work and admit none.
- Power loss that undoes an unsynced rename of the ledger file; the ledger file's encoding and checksum, which make it
  readable or not.
- NodeLedger.ValidateDiskState: the schema version is checked by `NodeLedger.Open`, because the state has no such field.
- String lengths are counted in characters where the code counts bytes.
- Read faults of the store: a read in the model always succeeds.
- Duplicate sequences in the event list a callback returns: events are a map by stream and sequence.
- The service without a node: every procedure in `NodeRoutes` assumes a route administration endpoint.
- A sandbox's route is bound under the sandbox's own id, as attaching does; assignments under another route id are not
  modelled.
- General progress of sandbox cleanup: its route fencing fails on a released route, so only the route procedures converge.
- Quotas of workspaces, environments and connectors, checkpoint deletion, receipts, ports, connectors and the warm pool:
  none of them touches the fences, claims, mounts or generations the proofs are about.
- Records.Validate: the fields of events are checked with the rest of the state; the code checks them when an event is
  appended on its own (`internal/store/store.go:692`).
- Reopening a store whose recovery index is missing, within a sequence of transactions: `Store.SqlStore.constructor` says
  what it gives, and `Store.PerformAll` reopens with the index kept.
- In `Controller`, idempotent replays of pause, resume, delete and checkpoint return without effect and are not steps;
  operation rows and events are modelled in the store only; node, route and generation of a row are one opaque assignment.
- In `Controller`, reading an expired sandbox is two steps, expiry and cleanup, where the code does both in one locked
  section.
- The file-backed store and its whole-file transactions.
