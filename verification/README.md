# GPTLink: a verified model

GPTLink gives a chat model policy-enforced access to computers. A Gateway keeps the
connections of remote Agents and admits their mutations; an Agent runs jobs; a local mode
lets a chat conversation act on one directory. This project models the stateful protocols
behind these promises and proves what they guarantee over whole runs.

`dafny verify dfyconfig.toml` checks everything.

## How the model is built

Code that changes state is modelled twice. A class holds the fields the program updates
(`ConnectionRegistry`, `DeviceRepository`, `LeaseService`, `GatewayOperations`,
`PairingService`, `JobManager`, `SessionApprover`, `Runtime`), and its methods, with their
loops and early returns, are proved to compute functions on the abstract state. Those
functions are then the steps of a machine in which any number of callers interleave. One
step is one block under a lock, one database transaction, or the code between two awaits
outside both. A run is a sequence of states connected by enabled steps, or equivalently the
state after a sequence of committed calls; theorems are about every run.

| module | program | subject |
|---|---|---|
| `Common` | | options, results, clock readings |
| `Devices` | `persistence/repositories.py`, `gateway/auth.py`, `gateway/operations.py` | device rows, authentication, authorization |
| `Registry` | `gateway/registry.py` | the blocks of the connection registry, as functions and as a class |
| `RegistryRuns` | `gateway/registry.py` | all interleavings of its callers |
| `RegistryPresence` | | presence, cancelled registrations, revocation |
| `RegistryRequests` | | futures, pending entries, answers, frames |
| `RegistryBlocks` | `gateway/registry.py` | what each block does, place by place, and what that means for calls |
| `RegistryWitnesses` | | concrete runs that show where guarantees end |
| `AgentHandlers` | `gateway/websocket.py` | what the handler of a connection does with an answer it has read |
| `Leases` | `gateway/leases.py` | fencing, refinement of a lock, disjoint ownership |
| `Mutations` | `gateway/operations.py`, `gateway/auth.py` | admission, composed with leases and registry |
| `Pairing` | `gateway/pairing.py` | attempt budgets, one device per code |
| `Jobs` | `agent/jobs.py`, `agent/executors/linux.py` | slots, bounded output, polling |
| `Json`, `JsonLexing`, `JsonDecoding` | `chat/protocol.py` | printing, shielding and decoding JSON |
| `ActionScanner` | `chat/protocol.py` | the block search against its declarative reading |
| `ResultRendering` | `chat/protocol.py` | rendered results are inert and correlated |
| `ActionWriting` | `chat/protocol.py` | an action written into a block is read as it was written |
| `Orchestrator` | `chat/orchestrator.py` | the bounded action loop |
| `LocalRuntime` | `local/runtime.py`, `local/approvals.py` | approvals, dispatch and audit of local actions |
| `Redaction` | `gateway/audit.py` | noninterference of secret redaction |

## What the proofs found

- A pending entry can outlive its call. If a call of `request` has left its `try` block for a
  reason other than cancellation and is then cancelled while it waits for the lock at
  `src/gptlink/gateway/registry.py:162`, its entry is never deleted and its request ID stays
  "already pending" until the connection is retired. One cancellation suffices
  (`RegistryWitnesses.CancelledCleanupLeaks`). Entries belong to calls in progress exactly in
  the runs where this does not happen (`RegistryRequests.EntriesOwnedIffNoLeak`).
- A request can be sent on a newer connection than the one it recorded; an answer there is
  ignored (`RegistryWitnesses.SentButNotAnswered`). An answer handed to `resolve` completes a
  waiting call if and only if it comes from the recorded connection
  (`RegistryRequests.DeliveredIffRecorded`). The handler touches the connection first, so an
  answer that was read is delivered if and only if, besides, that connection is still the current
  one of a live device and the touch commits (`AgentHandlers.ReadAnswerDeliveredIff`). An answer
  read on a recorded connection that was replaced is lost, and the call fails when the handler
  leaves (`AgentHandlers.ReplacedAnswerIsRefused`).
- A registration that is cancelled, and cancelled again while the disconnect of its handler
  waits for the lock (`src/gptlink/gateway/registry.py:79`), leaves its connection published and
  owned by nobody (`RegistryWitnesses.InterruptedWithdrawalStaysPublished`). A cancelled
  registration leaves its connection published exactly if the connection was current at its last
  move and that move was interrupted or could not commit (`RegistryPresence.CancelledRegistrationEnds`).
- A job that is cancelled before it has a slot ends with status PENDING
  (`Jobs.CancelledBeforeSlot`) and keeps it for ever (`Jobs.PendingForEver`). A finished task has
  a terminal status exactly if it entered the semaphore (`Jobs.TerminalIffEntered`).
- `LeaseService` reads the clock before its transaction. Fencing and exclusivity hold whatever
  the clock reads. Ownership intervals can overlap (`Leases.LateCommitOverlaps`); they stay
  disjoint throughout exactly if each grant is apart from all earlier leases of its device
  (`Leases.DisjointThroughoutIff`), for which readings that are nondecreasing in commit order are
  sufficient (`Leases.OwnershipIsDisjoint`) but not necessary (`Leases.UnorderedCanBeDisjoint`).
- "Allow for this session" is remembered when the prompting call resumes, not when the operator
  answers. A concurrent call can still prompt in between, and a call cancelled in between loses
  the grant (`LocalRuntime.ConcurrentCallAsksAgain`, `LocalRuntime.CancelledAnswerIsLost`). A
  new call prompts exactly when no grant was recorded (`LocalRuntime.PromptsIff`); between calls,
  exactly when every SESSION answer for its tool was dropped (`LocalRuntime.PromptsAgainIff`).
- A mutation executes under a lease that was active at its check; the owner can release it before
  the execution (`Mutations.LeaseMayEndBeforeExecution`).
- A shutdown update that fails leaves presence consistent exactly if the device was not ONLINE
  (`RegistryPresence.PresenceAfterClose`, with a run in `RegistryWitnesses.LostShutdownStaysOnline`);
  every other failing transaction is harmless.
- An action audited as denied has dispatched nothing, except exactly when the dispatcher itself
  raised a permission error, which the Agent's dispatcher does not
  (`LocalRuntime.DeniedDispatchedIff`, `LocalRuntime.DeniedIsNotDispatched`).

## Model

| member | source | states |
|---|---|---|
| `Devices.DeviceRepository.MarkOnlineRow` | src/gptlink/persistence/repositories.py:64-76 | sets ONLINE and `last_seen` on the row unless it is revoked, reports whether a row matched, changes nothing else |
| `Devices.DeviceRepository.MarkOfflineRow` | src/gptlink/persistence/repositories.py:78-87 | sets OFFLINE unless the row is revoked; `last_seen` is kept |
| `Devices.DeviceRepository.TouchPresence` | src/gptlink/persistence/repositories.py:89-107 | refreshes `last_seen`, turns only OFFLINE into ONLINE, never touches a revoked row |
| `Devices.DeviceRepository.SetPermissionLevel` | src/gptlink/persistence/repositories.py:51-62 | unknown device gives None, a revoked one is refused unchanged, otherwise previous and new level are returned |
| `Devices.AuthorizeIff` | src/gptlink/gateway/operations.py:249-272 | authorization succeeds exactly for an existing, unrevoked row with every required capability and, for a mutation, level READ_WRITE or FULL_ACCESS; which error each failing condition gives, in order |
| `Devices.MutationAuthorizedIff` | src/gptlink/gateway/operations.py:249-272 | a mutation is authorized if and only if the row exists and permits it |
| `Devices.AuthenticatesIff` | src/gptlink/gateway/auth.py:57-67 | a token is accepted exactly if the row is live and its stored hash verifies it |
| `Devices.PresenceWrites` | src/gptlink/persistence/repositories.py:64-107 | on a live row each presence update writes its status and `last_seen` and nothing else; BUSY and DEGRADED survive a heartbeat |
| `Devices.NoLiveRowNoWrite` | src/gptlink/persistence/repositories.py:51-107 | without a live row no update writes anything |
| `Devices.PermissionDecides` | src/gptlink/persistence/repositories.py:51-62 | after a level change of a live device its mutations are authorized exactly if the level is not READ_ONLY; no other row changes |
| `Devices.RevocationShutsOut` | src/gptlink/cli/main.py:289-307 | a revoked device is neither live nor authenticated nor authorized, keeps its `last_seen`, and no other row changes |
| `Registry.ConnectionRegistry.OpenConnection` | src/gptlink/gateway/registry.py:35-39 | a new connection has its own `last_seen` and nothing else changes |
| `Registry.ConnectionRegistry.PublishConnection` | src/gptlink/gateway/registry.py:95-103 | a connection is published only after its row was committed ONLINE; the replaced one is returned |
| `Registry.ConnectionRegistry.TouchConnection` | src/gptlink/gateway/registry.py:105-112 | a heartbeat counts only on the device's current connection and after its row was updated |
| `Registry.ConnectionRegistry.FailAll` | src/gptlink/gateway/registry.py:125-127 | fails exactly the listed futures that were still waiting |
| `Registry.ConnectionRegistry.DisconnectConnection` | src/gptlink/gateway/registry.py:114-127 | retires the connection only if it is current, deletes exactly the entries it owns and fails exactly their waiting futures; a failed update changes nothing |
| `Registry.ConnectionRegistry.BeginRequest` | src/gptlink/gateway/registry.py:148-152 | reads the device's connection and creates a waiting future; an offline device changes nothing |
| `Registry.ConnectionRegistry.AdmitRequest` | src/gptlink/gateway/registry.py:151-156 | a duplicate request ID is rejected and leaves the first entry alone |
| `Registry.ConnectionRegistry.SettleRequest` | src/gptlink/gateway/registry.py:161-169 | the cleanup deletes the entry only if it still holds this call's future, and cancels that future if it waits |
| `Registry.ConnectionRegistry.ResolveMessage` | src/gptlink/gateway/registry.py:171-189 | an answer is taken only from the recorded connection, and completes its future at most once; other messages change nothing and are reported as no answer |
| `Registry.ConnectionRegistry.ExpireConnections` | src/gptlink/gateway/registry.py:191-201 | retires exactly the silent connections, or stops at a failing update having retired only silent ones |
| `Registry.ConnectionRegistry.CloseRegistry` | src/gptlink/gateway/registry.py:203-219 | empties both tables, leaves no future of an entry waiting, and marks OFFLINE all devices whose update did not fail |
| `RegistryBlocks.PublishIff` | src/gptlink/gateway/registry.py:95-103 | a publication succeeds exactly if it commits on a live row; then the connection is current, the row ONLINE as of now, the replaced connection returned, and no other device concerned |
| `RegistryBlocks.TouchedIsFresh` | src/gptlink/gateway/registry.py:105-112 | which heartbeat is taken, and that expiry finds the connection silent only a threshold after it |
| `RegistryBlocks.ExpireWrites` | src/gptlink/gateway/registry.py:191-201 | expiry removes exactly the retired devices, marks their live rows OFFLINE, and leaves requests alone |
| `RegistryBlocks.DisconnectWrites` | src/gptlink/gateway/registry.py:114-127 | a retirement that takes place leaves no entry, waiting future or current place of the connection, and everything else as it was |
| `RegistryBlocks.CloseWrites` | src/gptlink/gateway/registry.py:203-219 | both tables are empty, exactly the waiting futures of entries fail, and exactly the live connected rows whose update committed are OFFLINE |
| `RegistryBlocks.AdmitWrites` | src/gptlink/gateway/registry.py:153-156 | an admitted request has its own entry, a rejected one changes nothing, and other entries stay |
| `RegistryBlocks.SettleWrites` | src/gptlink/gateway/registry.py:161-169 | the cleanup leaves no entry and no waiting future of its call, and everything else as it was |
| `RegistryBlocks.ResolveWrites` | src/gptlink/gateway/registry.py:171-189 | an accepted answer delivers its own payload or its own error code to the one waiting future of its entry, and any other answer changes nothing |
| `RegistryBlocks.ShutdownFailsCalls` | src/gptlink/gateway/registry.py:203-219 | in every run shutdown empties the tables and fails every call in progress that waits |
| `RegistryBlocks.RetirementFailsCalls` | src/gptlink/gateway/registry.py:114-127 | in every run the retirement of a connection fails every waiting call that recorded it |
| `RegistryBlocks.BrokenSendRetires` | src/gptlink/gateway/registry.py:135-140 | a broken send retires its connection unless the update cannot commit, and its call goes to its cleanup |
| `RegistryBlocks.SendOnCurrent` | src/gptlink/gateway/registry.py:129-142 | a frame goes out on the connection current then, and the call waits for an answer exactly if that connection is still current afterwards |
| `RegistryBlocks.EndedCallsDoNotWait` | src/gptlink/gateway/registry.py:158-169 | a call that gives up or cleans up leaves no waiting future |
| `RegistryBlocks.AdministrationTakesEffect` | src/gptlink/cli/main.py:289-307 | revocation, level changes, pairing and expiry in a run do to the device what they are for |
| `RegistryPresence.ResumeIff` | src/gptlink/gateway/registry.py:84-93 | `register` returns only after the replaced connection, if any, was closed |
| `RegistryPresence.CancelledNeverReturns` | src/gptlink/gateway/registry.py:62-93 | in every run a registration cancelled before it returned never returns its connection to anyone |
| `RegistryPresence.WithdrawalIff` | src/gptlink/gateway/registry.py:71-92 | the last move of a cancelled registration leaves its connection current if and only if it was current and the move was interrupted before the lock or did not commit |
| `RegistryPresence.CancelledRegistrationEnds` | src/gptlink/gateway/registry.py:62-93 | in every run, however a cancelled registration ended, one earlier move decided by that condition whether its connection stayed published, and a withdrawn one is not current again |
| `RegistryPresence.CancelledRegistrationIsNotPublished` | src/gptlink/gateway/registry.py:71-92 | in every run a cancelled registration whose disconnect took place is not the current connection of its device, then or later |
| `RegistryPresence.PresenceAlways` | src/gptlink/gateway/registry.py:62-127 | in every run a non-revoked row is ONLINE only if its device is connected, and a connected non-revoked device is never OFFLINE |
| `RegistryPresence.PresenceAfterClose` | src/gptlink/gateway/registry.py:203-214 | the exact condition under which lost shutdown updates leave presence consistent |
| `RegistryPresence.RevocationIsFinal` | src/gptlink/gateway/auth.py:57-67 | from revocation on, no step changes the row's `last_seen`, level or capabilities, and no publication, touch, authentication or authorization of the device succeeds |
| `RegistryRequests.FutureCause` | src/gptlink/gateway/registry.py:144-189 | a future changes only from waiting, by one of three causes: the connection of its entry is retired or the registry shuts down, its answer arrives, or its own call gives up |
| `RegistryRequests.CompletesOnce` | src/gptlink/gateway/registry.py:182-189 | a completed future keeps its outcome for the rest of the run |
| `RegistryRequests.EntryCause` | src/gptlink/gateway/registry.py:153-156 | an entry is added only by the admission of its own call and never rewritten |
| `RegistryRequests.EntryRemovedOnlyBy` | src/gptlink/gateway/registry.py:114-127 | the only four events that take an entry away; a rejected duplicate or a foreign answer is none of them |
| `RegistryRequests.OwnershipAlways` | src/gptlink/gateway/registry.py:144-169 | every pending entry holds the future of the one call it was made for, under that call's key and recorded connection |
| `RegistryRequests.EntriesOwnedIffNoLeak` | src/gptlink/gateway/registry.py:161-165 | entries belong to calls in progress throughout a run if and only if no cleanup is cancelled while it waits for the lock |
| `RegistryRequests.EmptyWhenIdle` | src/gptlink/gateway/registry.py:152-169 | without such a cancellation the pending table is empty whenever no call is in progress |
| `RegistryRequests.AnswersComeFromRecordedConnection` | src/gptlink/gateway/registry.py:171-189 | a delivered answer arrived after registration, on the recorded connection, with the call's device and request ID, and completed no other call |
| `RegistryRequests.ForeignAnswerIgnored` | src/gptlink/gateway/registry.py:179-180 | an answer on any other connection changes neither the future nor the entry |
| `RegistryRequests.RemovalCompletes` | src/gptlink/gateway/registry.py:121-127 | every event that takes an entry out of the pending table completes its future |
| `RegistryRequests.KeepsEntryAlways` | src/gptlink/gateway/registry.py:153-169 | in every run a call in progress whose future waits has its own entry in the pending table |
| `RegistryRequests.DeliveredIffRecorded` | src/gptlink/gateway/registry.py:171-189 | for a call in progress that still waits, the answer to its request, handed to `resolve`, completes it if and only if it is handed over by the recorded connection |
| `RegistryRequests.OneFrameAlways` | src/gptlink/gateway/registry.py:129-142 | each call puts at most one frame on a wire, to its own device, also across replacement |
| `RegistryWitnesses.CancelledCleanupLeaks` | src/gptlink/gateway/registry.py:161-165 | a reachable state with one cancellation in which an entry has no call in progress |
| `RegistryWitnesses.SentButNotAnswered` | src/gptlink/gateway/registry.py:148-158 | a reachable state in which a request recorded one connection, was sent on its successor, got an answer there and still waits |
| `RegistryWitnesses.InterruptedWithdrawalStaysPublished` | src/gptlink/gateway/registry.py:71-83 | a reachable state in which a twice cancelled registration has ended and its connection is current |
| `RegistryWitnesses.LostShutdownStaysOnline` | src/gptlink/gateway/registry.py:203-214 | a reachable state in which a lost shutdown update left a disconnected device ONLINE |
| `AgentHandlers.WorldRunProjects` | src/gptlink/gateway/websocket.py:88-119 | every run with handlers contains a run of the registry that ends in the same state |
| `AgentHandlers.TouchAdmitsIff` | src/gptlink/gateway/websocket.py:92-93 | an answer that was read can be handed over exactly if its connection is the current one of a live device and the touch commits; otherwise the handler leaves; the touch completes no future, and if it succeeds it is recorded in row and connection |
| `AgentHandlers.HandDeliversIff` | src/gptlink/gateway/websocket.py:92-94 | whatever interleaved since the touch, an admitted answer completes a waiting call if and only if it was read on the recorded connection |
| `AgentHandlers.ReadAnswerDeliveredIff` | src/gptlink/gateway/websocket.py:88-94 | an answer that was read completes a call in progress that waits if and only if it was read on the recorded connection, this is current, its device is live and the touch commits |
| `AgentHandlers.LeaveFailsIff` | src/gptlink/gateway/websocket.py:115-119 | a handler that leaves fails a waiting call if and only if its connection is the recorded one and is not current or its update commits |
| `AgentHandlers.DeliveredAfterTouch` | src/gptlink/gateway/websocket.py:88-94 | in every run a delivered answer was read on the recorded connection, then touched while current and live, then handed over, in this order |
| `AgentHandlers.HandedOnce` | src/gptlink/gateway/websocket.py:88-94 | between two handovers of a handler it has read another answer |
| `AgentHandlers.LeftForGood` | src/gptlink/gateway/websocket.py:115-119 | a handler that left handles nothing any more |
| `AgentHandlers.ReplacedAnswerIsRefused` | src/gptlink/gateway/registry.py:105-108 | a reachable state in which an answer on the recorded connection is refused because of a replacement, the call waits on, and fails once the handler leaves |
| `Leases.GetActive` | src/gptlink/persistence/repositories.py:207-212 | returns an unreleased, unexpired row of the device, and None only if there is none |
| `Leases.LeaseService.AcquireLease` | src/gptlink/gateway/leases.py:29-46 | retires expired rows and inserts, or reports the conflict with the whole transaction rolled back |
| `Leases.LeaseService.FindActive` | src/gptlink/persistence/repositories.py:207-212 | the search over the table finds what `GetActive` specifies |
| `Leases.LeaseService.RetireExpired` | src/gptlink/persistence/repositories.py:222-230 | writes `released_at` as the expiry on exactly the expired unreleased rows of the device |
| `Leases.LeaseService.ValidateLease` | src/gptlink/gateway/leases.py:48-60 | succeeds exactly for an unreleased, unexpired lease of that device and owner, and returns its row |
| `Leases.LeaseService.ReleaseLease` | src/gptlink/gateway/leases.py:62-70 | writes `released_at` once, for the owner only; an expired lease can still be released |
| `Leases.RetireWrites` | src/gptlink/persistence/repositories.py:222-230 | retiring writes exactly the expired unreleased rows of the device, with their expiry as `released_at` |
| `Leases.OneOpenLeasePerDevice` | src/gptlink/persistence/models.py:150-157 | after any calls with any clock readings each device has at most one unreleased row, and the unique index never rejects an insert |
| `Leases.ReleasedOnce` | src/gptlink/persistence/repositories.py:243-250 | no later call changes a released row |
| `Leases.Fencing` | src/gptlink/gateway/leases.py:48-60 | once a newer lease exists on a device, no older one validates again, whatever is called later and whatever the clocks read |
| `Leases.ValidatesIffActive` | src/gptlink/gateway/leases.py:48-60 | `validate` accepts exactly the row `get_active` would return, from its owner |
| `Leases.TableRefinesLock` | src/gptlink/persistence/repositories.py:207-250 | from related states, the row history answers every sequence of calls as a per-device expiring lock does |
| `Leases.LeasesAreALock` | src/gptlink/persistence/repositories.py:207-250 | from an empty table the outcomes of all calls are those of the lock |
| `Leases.OwnershipIsDisjoint` | src/gptlink/gateway/leases.py:29-46 | with readings nondecreasing in commit order, no instant lies in the ownership intervals of two leases ever granted on one device |
| `Leases.LateCommitOverlaps` | src/gptlink/gateway/leases.py:35-44 | three calls whose early clock reading makes two intervals on one device overlap |
| `Leases.KeepsDisjointIff` | src/gptlink/gateway/leases.py:29-46 | with disjoint intervals before it, any call keeps them disjoint if and only if, should it be a grant, every earlier lease of the device is empty, over by now, or starts after the new one ends |
| `Leases.DisjointThroughoutIff` | src/gptlink/gateway/leases.py:29-46 | for any calls and clock readings, intervals are disjoint after every prefix exactly if every grant passes that guard |
| `Leases.UnorderedCanBeDisjoint` | src/gptlink/gateway/leases.py:35-44 | three calls whose readings go backwards and whose intervals are disjoint |
| `Mutations.GatewayOperations.ClaimRequest` | src/gptlink/gateway/auth.py:80-88 | the claim succeeds exactly the first time |
| `Mutations.GatewayOperations.Mutate` | src/gptlink/gateway/operations.py:204-247 | the callback runs and the ID is spent exactly if the row exists, is unrevoked, has the capabilities and level, the lease is active for this caller, and the ID is new; a refusal names the first failing check, and every call leaves one audit row with its verdict |
| `Mutations.AdmissionAlways` | src/gptlink/gateway/operations.py:218-224 | the invariant of all interleavings: claims, effects and registry calls of mutations are pairwise distinct and tied to their own intents |
| `Mutations.GatewayRunProjects` | src/gptlink/gateway/operations.py:218-224 | every run of the Gateway with its mutations and leases contains a run of the registry that ends in the same registry state |
| `Mutations.RegistryAlways` | src/gptlink/gateway/registry.py:129-189 | entry ownership, provenance of answers and one frame per call hold in every run of the Gateway |
| `Mutations.PresenceInGateway` | src/gptlink/gateway/registry.py:62-127 | presence agrees with the connection table in every run of the Gateway without a lost shutdown update |
| `Mutations.SuccessIsAnswered` | src/gptlink/gateway/registry.py:171-189 | the answer of a successful mutation is an operation result for its own request ID, received on the recorded connection of its own device and taken by no other call |
| `Mutations.EffectAtMostOnce` | src/gptlink/gateway/auth.py:70-88 | in every interleaving of `mutate` calls, leases and registry, the callback runs at most once per request ID, and never for an ID claimed before a restart |
| `Mutations.FrameAtMostOnce` | src/gptlink/gateway/registry.py:129-142 | mutations put at most one frame per request ID on the wire, on a connection of their device; replacement never resends |
| `Mutations.ClaimsAreExact` | src/gptlink/gateway/auth.py:80-88 | an ID is spent exactly if a call claimed it; denied calls spend none and no two calls share one |
| `Mutations.ExecutionFollowsChecks` | src/gptlink/gateway/operations.py:218-224 | every execution comes after that same call's own check of an unrevoked row with the capabilities and level, check of the active lease, and fresh claim, in this order |
| `Mutations.StagesIff` | src/gptlink/gateway/operations.py:218-224 | exactly when each check lets a mutation through, and that a failed one spends nothing |
| `Mutations.LeaseMayEndBeforeExecution` | src/gptlink/gateway/operations.py:222-224 | after a passed lease check the owner's release makes the lease invalid for every reading, and the mutation still claims and executes |
| `Mutations.ReplayIsDenied` | src/gptlink/gateway/auth.py:84-88 | a claim that lost the race finds the claim again and is reported as a replay |
| `Pairing.AlphabetIs` | src/gptlink/gateway/pairing.py:22 | the pattern of `redeem` accepts exactly the characters that codes are drawn from |
| `Pairing.LocatorOfCode` | src/gptlink/gateway/pairing.py:93-95 | a well-formed code is looked up under its first four characters |
| `Pairing.MatchIsUnique` | src/gptlink/persistence/repositories.py:150-160 | in consistent tables at most one live code has a locator, so the update spends the attempt of that one |
| `Pairing.PairingService.AddUniqueLocator` | src/gptlink/persistence/repositories.py:129-142 | inserts unless the locator is taken, and tells that collision from one of the hash |
| `Pairing.PairingService.CreateCode` | src/gptlink/gateway/pairing.py:71-90 | the offer is the first draw with a free locator among twenty; earlier offers are never replaced |
| `Pairing.PairingService.BeginAttempt` | src/gptlink/persistence/repositories.py:144-160 | adds one attempt to the live code with this locator and to no other |
| `Pairing.PairingService.RedeemCode` | src/gptlink/gateway/pairing.py:92-125 | the attempt is spent before verification, device, use and credential appear together or not at all, and a credential is only given for a whole, verified code that was live and is unexpired |
| `Pairing.ConsistentAfter` | src/gptlink/gateway/pairing.py:92-125 | the invariant of all committed calls: budgets, use and redeemed device together, distinct credentials, unique locators |
| `Pairing.AttemptsCountTries` | src/gptlink/gateway/pairing.py:98-107 | `attempts` counts exactly the committed tries at the live code, right, wrong or malformed, and never exceeds the limit |
| `Pairing.CredentialIff` | src/gptlink/gateway/pairing.py:92-125 | a redemption yields a credential if and only if it commits and its text is a whole code that the hash of a live code with its locator verifies, unexpired at the second reading; it is for that code |
| `Pairing.CredentialIsEarned` | src/gptlink/gateway/pairing.py:92-125 | in every run each credential issued goes back to such a redemption of its code |
| `Pairing.RedeemedDevice` | src/gptlink/gateway/pairing.py:111-121 | the new device authenticates exactly with its own token, is READ_ONLY and offline, and the code is used by it after one more attempt |
| `Pairing.OfferIsRedeemable` | src/gptlink/gateway/pairing.py:71-125 | a code just offered is redeemed by its own text exactly until it expires |
| `Pairing.UsedOnce` | src/gptlink/gateway/pairing.py:119-120 | a used code is never written again, and has its redeemed device |
| `Pairing.CredentialsAreOneToOne` | src/gptlink/gateway/pairing.py:108-125 | used codes, devices created by pairing and credentials issued correspond one to one |
| `Jobs.JobManager.StartJob` | src/gptlink/agent/jobs.py:44-62 | an empty command or nonpositive timeout is refused unchanged; otherwise a pending job is added |
| `Jobs.JobManager.Acquire` | src/gptlink/agent/jobs.py:68 | a task enters exactly when a permit is free, and takes it |
| `Jobs.JobManager.OnChunk` | src/gptlink/agent/jobs.py:95-104 | a chunk is stored exactly if it fits the limit, otherwise only the flag changes |
| `Jobs.JobManager.RunReaders` | src/gptlink/agent/executors/linux.py:57-77 | both reader loops, in any order of their reads, number chunks without gaps and record refusals |
| `Jobs.JobManager.RecordResult` | src/gptlink/agent/jobs.py:69-90 | TIMED_OUT exactly on timeout, CANCELLED exactly on cancellation, SUCCEEDED exactly on exit code 0, FAILED on any other end; the exit code is the process's own or none, the output stays, and the permit is given back |
| `Jobs.JobManager.CancelJob` | src/gptlink/agent/jobs.py:141-149 | requests cancellation unless the task is done; an unknown job is an error |
| `Jobs.JobManager.ReadOutput` | src/gptlink/agent/jobs.py:136-139 | the stored chunks numbered above the cursor, in stored order; an unknown job is an error |
| `Jobs.SlotsConserved` | src/gptlink/agent/jobs.py:64-90 | in every run free permits and jobs inside the semaphore add up to the limit |
| `Jobs.OutputIsBounded` | src/gptlink/agent/jobs.py:95-104 | stored bytes are the sum of the stored chunks and within the limit; stored chunks are an increasing selection of those produced; the flag is set exactly if one was dropped, and otherwise numbers are 0 to n-1 |
| `Jobs.StatusRecordedOnce` | src/gptlink/agent/jobs.py:78-90 | a status other than PENDING and its exit code never change again |
| `Jobs.StatusTellsEnding` | src/gptlink/agent/jobs.py:69-90 | in every run a recorded status and exit code go back to the one step that ended the job and tell how it ended |
| `Jobs.FinishedOnce` | src/gptlink/agent/jobs.py:68-90 | in every run a job is ended by one step at most |
| `Jobs.TerminalIffEntered` | src/gptlink/agent/jobs.py:67-90 | a finished task has a terminal status exactly if it got a slot, and SUCCEEDED exactly with exit code 0 |
| `Jobs.PendingForEver` | src/gptlink/agent/jobs.py:67-69 | a task that ended without a slot is PENDING in every later state |
| `Jobs.CancelledBeforeSlot` | src/gptlink/agent/jobs.py:67-69 | under any limits a run of three steps reaches a finished task with status PENDING |
| `Jobs.PollCatchesUp` | src/gptlink/agent/jobs.py:136-139 | one poll with the last number received as cursor delivers exactly the chunks stored since |
| `Jobs.PollingIsExact` | src/gptlink/agent/jobs.py:136-139 | in every interleaving of readers and pollers each stored chunk is delivered exactly once and in order |
| `Json.ShieldPrint` | src/gptlink/chat/protocol.py:159-160 | the three replacements on the printed text equal printing with shielded string literals, and leave no `&`, `<` or `>` |
| `JsonLexing.MarkupOnlyInLiterals` | src/gptlink/chat/protocol.py:159-160 | in printed JSON the three characters stand only inside string literals and never after an unfinished escape |
| `JsonDecoding.DecodesBack` | src/gptlink/chat/protocol.py:159 | every well-formed value, printed plain or shielded, decodes to itself |
| `JsonDecoding.ShieldingPreservesMeaning` | src/gptlink/chat/protocol.py:159-160 | the shielded text decodes to the same value as the unshielded and contains none of the three characters |
| `ActionScanner.MatchFinds` | src/gptlink/chat/protocol.py:122 | a match of the lazy, backtracking pattern starts at an opening tag, ends at the first closing tag after it, and its payload is the trimmed text between |
| `ActionScanner.SearchFindsFirst` | src/gptlink/chat/protocol.py:122 | the left-to-right search finds the first opening tag that has a closing tag after it |
| `ActionScanner.NoActionIffNoFragment` | src/gptlink/chat/protocol.py:124-127 | no action is reported exactly if no tag fragment occurs |
| `ActionScanner.SpacesAre` | src/gptlink/chat/protocol.py:26 | the 29 code points that `\s` matches in text |
| `ActionScanner.ExaminesIffOneBlock` | src/gptlink/chat/protocol.py:120-131 | a payload is examined exactly if one opening tag precedes one closing tag and no other full tag exists; it is the trimmed text between |
| `ResultRendering.FrameIsInert` | src/gptlink/chat/protocol.py:161 | a result frame around text without `<` parses as no action |
| `ResultRendering.RenderedIsInert` | src/gptlink/chat/protocol.py:141-161 | every rendered result, whatever it reports, parses as no action |
| `ResultRendering.RenderedResult` | src/gptlink/chat/protocol.py:141-161 | every rendered result parses as no action, carries its identifier, and its body decodes to the payload |
| `ResultRendering.RenderedTells` | src/gptlink/chat/protocol.py:141-161 | the body of a rendered result decodes to an object whose members say what happened: the value, or the type and message of the error |
| `ResultRendering.ActionIdIff` | src/gptlink/chat/protocol.py:27 | the accepted identifiers are those the pattern matches from left to right |
| `ResultRendering.ResultsAreCorrelated` | src/gptlink/chat/protocol.py:149-161 | results rendered for different identifiers are different texts |
| `ActionWriting.TrimBlank` | src/gptlink/chat/protocol.py:26 | white space around a payload is trimmed, and nothing else |
| `ActionWriting.WrittenIsOneBlock` | src/gptlink/chat/protocol.py:120-131 | a block among text without `<` is the one block of the text |
| `ActionWriting.WrittenActionIsRead` | src/gptlink/chat/protocol.py:120-131 | a JSON object written into a block, with any white space around it and any text without `<` around the block, is examined as its own text and decodes to itself |
| `Orchestrator.Parse` | src/gptlink/chat/protocol.py:120-138 | an accepted action has an identifier of the required form |
| `Orchestrator.ParseIff` | src/gptlink/chat/protocol.py:120-138 | a reply asks for an action exactly if its one block's payload is accepted with an identifier of the required form, and for nothing exactly without a tag fragment |
| `Orchestrator.ExecutedOnce` | src/gptlink/chat/orchestrator.py:45-66 | whatever is asked for, each identifier is executed exactly once and nothing else is |
| `Orchestrator.Handle` | src/gptlink/chat/orchestrator.py:58-89 | one round executes exactly a new identifier, reports the value, rejection or crash of that execution as such and a repeated identifier as a duplicate, and sends the report in the same conversation |
| `Orchestrator.RunTurn` | src/gptlink/chat/orchestrator.py:37-96 | for every stream of replies and results: at most the limit of results, one more send than results, every send in the attached conversation, each result for the action in the reply just before it, executions exactly the first of each identifier, and why the turn ended; each message sent next reads back as the value, rejection or crash of that execution, or as a duplicate |
| `Orchestrator.SendsAreInert` | src/gptlink/chat/orchestrator.py:58-89 | every message sent after the first parses as no action |
| `Orchestrator.RunChatTurn` | src/gptlink/chat/orchestrator.py:37-96 | with `parse_action` as the parser and any payload validation, each result answers the action parsed from the reply just before it, no message sent after the first can be taken for an action, and an answer returned carries no tag fragment |
| `LocalRuntime.SessionApprover.Approve` | src/gptlink/local/approvals.py:34-41 | prompts exactly if the tool is not remembered, grants ONCE and SESSION, remembers only SESSION |
| `LocalRuntime.Runtime.Authorize` | src/gptlink/local/runtime.py:90-92 | building the message, the permission check, the approval and the dispatch follow the machine's steps; exactly when the action is cleared, refused, or remembered for the session |
| `LocalRuntime.Runtime.Execute` | src/gptlink/local/runtime.py:80-114 | a sequential call has exactly the effect of its uninterrupted steps; exactly when it returns a value, lets an exception through, and is audited as denied, in terms of tool, permission, remembered tools, answer and response |
| `LocalRuntime.Runtime.Dispatch` | src/gptlink/local/runtime.py:93-105 | the caller gets a value exactly for an operation result, and a raw exception exactly where none of the handlers applies |
| `LocalRuntime.Runtime.WriteAudit` | src/gptlink/local/runtime.py:106-114 | the settled status is recorded once, if it can be written |
| `LocalRuntime.StoryAlways` | src/gptlink/local/runtime.py:87-114 | in every interleaving the prompts, answers, dispatch and audit record of each call follow one of the listed orders, with at most one dispatch and one audit record |
| `LocalRuntime.DeniedDispatchedIff` | src/gptlink/local/runtime.py:91-102 | a call the operator answered with DENY never dispatches; a finished call audited as denied dispatched if and only if the dispatcher raised a permission error |
| `LocalRuntime.DeniedIsNotDispatched` | src/gptlink/agent/dispatcher.py:53-65 | with a dispatcher that answers errors with a message, no call audited as denied dispatched |
| `LocalRuntime.PolicyAlways` | src/gptlink/local/runtime.py:116-123 | in every interleaving READ_ONLY neither prompts for nor dispatches a mutation; any other mutation dispatched has its own ONCE or SESSION answer or an earlier SESSION answer for its tool; no prompt opens after a recorded grant |
| `LocalRuntime.PromptsIff` | src/gptlink/local/approvals.py:34-36 | a new call prompts exactly if it mutates, may, and no session grant for its tool is recorded |
| `LocalRuntime.ReadOnlyChangesNothing` | src/gptlink/local/runtime.py:116-120 | in every interleaving READ_ONLY opens no prompt and dispatches neither `filesystem_write` nor `command_start` |
| `LocalRuntime.OthersRunAtOnce` | src/gptlink/local/runtime.py:116-118 | every other action is dispatched at once under any permission |
| `LocalRuntime.CancelledFails` | src/gptlink/local/runtime.py:88-114 | a cancelled call is audited as an error unless it was settled already |
| `LocalRuntime.AuditedOnce` | src/gptlink/local/runtime.py:106-114 | a finished call has exactly one audit record if writing it succeeded, with its status, after everything else it did |
| `LocalRuntime.SessionAnswerLasts` | src/gptlink/local/approvals.py:34-41 | between calls, a tool answered with SESSION is not prompted for again unless that very call was cancelled before it resumed |
| `LocalRuntime.PromptsAgainIff` | src/gptlink/local/approvals.py:34-41 | between calls under READ_WRITE, a mutation is prompted for if and only if every SESSION answer given for its tool was dropped by a cancellation before its call resumed |
| `LocalRuntime.ConcurrentCallAsksAgain` | src/gptlink/local/approvals.py:37-40 | two calls at once: the second prompts after the first was answered with SESSION |
| `LocalRuntime.CancelledAnswerIsLost` | src/gptlink/local/approvals.py:37-40 | a cancellation between the SESSION answer and its recording makes the next call prompt again |
| `Redaction.SensitiveIff` | src/gptlink/gateway/audit.py:11-40 | a key is sensitive exactly if it contains one of six markers or is one of three names |
| `Redaction.UnderscoredIff` | src/gptlink/gateway/audit.py:29-30 | two names are normalised alike exactly if they differ at most in `-` for `_`, and a name without `-` stays |
| `Redaction.HyphensDoNotMatter` | src/gptlink/gateway/audit.py:29-40 | names that differ at most in `-` for `_` are equally sensitive |
| `Redaction.RedactionHidesExactly` | src/gptlink/gateway/audit.py:43-54 | two trees redact to equal trees if and only if they differ at most beneath sensitive keys |
| `Redaction.FixedIffClean` | src/gptlink/gateway/audit.py:43-54 | redaction leaves exactly the trees alone that have only the placeholder beneath sensitive keys |
| `Redaction.RedactionIsIdempotent` | src/gptlink/gateway/audit.py:43-54 | redacting twice is redacting once |
| `Redaction.RestIsKept` | src/gptlink/gateway/audit.py:43-54 | keys, their order, lengths and values are kept everywhere but beneath sensitive keys |
| `Redaction.RedactedAt` | src/gptlink/gateway/audit.py:46-50 | what stands at every path: the redacted subtree, the placeholder at the first sensitive key, and nothing beneath it |

## Left out

- HTTP and MCP endpoints, the command line and `remote.py`: forwarding around the modelled objects. Of the WebSocket handler, `AgentHandlers` has the loop over answers and the final disconnect; handshake, heartbeat replies and close codes are left out, and a socket send is a step that succeeds or fails.
- Answers in `RegistryRuns` and `Mutations.Gateway`: a step hands an answer to `resolve` from any opened connection, with or without the touch before it; only `AgentHandlers` requires it, so the other modules' theorems hold for more runs than the program has.
- Database internals: a transaction is one step that commits or changes nothing; foreign keys are not modelled, and `set_permission` is atomic like the rest.
- Cancellation inside a block under the lock or inside a transaction: each block is one step, so a cancelled but committed update of `disconnect` or `expire` is not a behaviour of the model.
- Hashes, tokens and fresh identifiers: `verify` is any predicate, identifiers are serial numbers or insertion positions.
- Trimming and upper-casing of pairing codes: `Pairing` starts from the normalised text.
- Validation of an examined payload: `Orchestrator` takes any decoder from text to an optional action; a decoder that raises anything else, such as on exhausted recursion, is not covered.
- JSON floats, values that `json.dumps` rejects, and lone surrogates: `Json` has integers and strings of Unicode scalar values; a rejected value is an execution that cannot be rendered.
- `list_devices`, `device_info`, `acquire_lease`, `release_lease` and `read` of GatewayOperations: they combine the modelled checks and add only easy members.
- Audit rows in the interleaved `Mutations.Gateway`: the class `GatewayOperations` has them; a failing audit insert is not modelled.
- Process control, signals, Windows executors and chunk decoding: a process is a source of chunk sizes and an exit code.
- The order in which a semaphore or lock serves its waiters: any waiter may be next.
- Jobs.JobManager.CancelJob: does not model the termination of the process, which is outside the model; the cancellation reaching the task is a step of its own.
- Paths, the workspace sandbox and building of messages: building a message succeeds or raises one of four kinds of failure; the list wrapper of `_bounded_result` is not modelled.
- Prompt texts, audit timestamps and durations: they decide nothing.
- Case folding of keys in `Redaction`: any function, so the theorems hold for the real one.
- Redaction.RestIsKept: a mapping is a sequence of items, so that keys are distinct is not stated.
