# AuraClaw Action Hands: a Dafny model

AuraClaw's Action Hands plane (`src/auraclaw/action/`) runs tools, resources and Skills for
many tenants in one asyncio process. Its stores and gateways are in-memory state machines:
they hand out leases, locks and permits, coalesce concurrent work, and reclaim their
bookkeeping while other tasks may still hold it. This project models these machines and
proves what they promise, over every input and every interleaving.

How the model is built:

- A stretch of code between two suspension points, or the body of a lock, is one atomic
  step. Steps are pure functions on the component's state; where the source updates fields
  in place, a class carries the step out on fields of the same names and is proved equal to
  the function.
- A component with concurrent callers is a state machine over those functions: shared state
  plus the frames of suspended tasks. `Run` is any sequence of enabled steps; invariants are
  proved per step and the theorems speak about every state of every run.
- Time is an integer given to steps. Hashes are injective, so a package digest carries its
  publisher, name and version. Network, storage, policy and embedding answers are parameters.

| file | component |
|---|---|
| `SkillAvailability.dfy`, `SkillSelection.dfy`, `SkillResolver.dfy` | dependency walk, version selection and recursive resolution |
| `VersionOrder.dfy`, `SkillLifecycle.dfy`, `SkillPublication.dfy`, `SkillPublicationRuns.dfy`, `SkillActiveVersion.dfy`, `SkillStoreLaws.dfy`, `AdmissionPages.dfy` | version order, the lifecycle store, publishing over whole runs, the exact effect of each operation, admission paging |
| `ToolGateway.dfy`, `ToolResults.dfy`, `ExecutionCapacity.dfy` | idempotent execution and admission of tools |
| `ResourceGateway.dfy`, `ResourceAnswers.dfy`, `ResourceFreshness.dfy`, `ResourceJoins.dfy`, `SkillContentCache.dfy`, `SkillContentAnswers.dfy`, `SkillRebuild.dfy` | caches and coalescing |
| `BoundedMap.dfy` | the partitioned worker pool |
| `CapabilityCatalog.dfy`, `CatalogLeases.dfy`, `CatalogReconciler.dfy` | catalog contents, leases, generations and local epochs |
| `McpRegistry.dfy`, `McpClaims.dfy`, `ConnectionManager.dfy`, `ResourceRegistry.dfy`, `ResourceViews.dfy` | operation claims, convergence of loaded servers, tenant-scoped resources |
| `Counting.dfy`, `Wrappers.dfy` | counting entries of a map; options and results |

Four properties one might expect do not hold, and the model says exactly when they do:

- A read that joins a running resource load may get data older than an invalidate
  (`StaleJoinExists`); `JoinedDataFreshIff` gives the condition at the join.
- Different versions may be equal in the version order (`KeysCollide`); `SameKeyIff` gives
  the condition on their texts.
- A server whose apply failed late is taken for loaded by the next pass
  (`LateFailureForgotten`); `RetriedIff` gives the condition.
- The configuration revision of a catalogued server may fall although no upsert may roll back
  (`RevisionCanFall`); `RevisionKeptIff` gives the condition.

## Model

| member | source | states |
|---|---|---|
| `SkillAvailability.RequirementsAvailable` | src/auraclaw/action/skill_packages.py:1135-1159 | The loop answers true exactly when every listed requirement is well formed and met by some catalogued capability of the wanted kinds; a value that is not a list is satisfied only when it is falsy. |
| `SkillAvailability.ContractDependenciesAvailable` | src/auraclaw/action/skill_packages.py:1072-1133 | The recursive method terminates on every graph and computes the path-sensitive walk, including the answers for malformed contracts. |
| `SkillAvailability.AnyMatchAvailable` | src/auraclaw/action/skill_packages.py:1107-1132 | The match loop finds an available match off the current path exactly when one exists. |
| `SkillAvailability.WalkSound` | src/auraclaw/action/skill_packages.py:1072-1133 | Whatever the walk accepts is supported by every set that is closed under the availability rule. |
| `SkillAvailability.WalkComplete` | src/auraclaw/action/skill_packages.py:1072-1133 | A contract supported at some round of the fixed-point iteration is accepted along any path that avoids the earlier rounds. |
| `SkillAvailability.WalkMatchComplete` | src/auraclaw/action/skill_packages.py:1118-1130 | The same for a single match: skipping ids on the path never loses an available Skill. |
| `SkillAvailability.FixedPointIsStage` | src/auraclaw/action/skill_packages.py:1050-1133 | The least fixed point is reached after finitely many rounds. |
| `SkillAvailability.AvailableIffInLeastFixedPoint` | src/auraclaw/action/skill_packages.py:1050-1133 | For all catalogs, cyclic or not, the service answers true exactly when the Skill is in the least fixed point of "own requirements met and every required Skill has some available match". |
| `SkillAvailability.OrderIrrelevant` | src/auraclaw/action/skill_packages.py:1065-1070 | The answer is the same for every order of the same candidates. |
| `SkillAvailability.SupportedIff` | src/auraclaw/action/skill_packages.py:1072-1159 | The rule of the fixed point, spelled out on the contract: every listed tool and resource is in the catalog by name or URI template and version, and every listed Skill has a match of that name, version and publisher among those that count as available. |
| `SkillAvailability.AvailableWithoutCatalog` | src/auraclaw/action/skill_packages.py:1050-1065 | Without a catalog a Skill is available exactly when it declares no dependencies. |
| `SkillResolver.UniqueById` | src/auraclaw/action/skill_packages.py:1347-1356 | The dictionary loop keeps exactly the first item of each id, in order. |
| `SkillResolver.UniqueDistinct` | src/auraclaw/action/skill_packages.py:1347-1356 | No id occurs twice in the result. |
| `SkillResolver.UniqueSame` | src/auraclaw/action/skill_packages.py:1347-1356 | Where equal ids mean equal items, the result has exactly the members of the input. |
| `SkillSelection.SemverOfRender` | src/auraclaw/action/skill_packages.py:1458-1463 | On every version of Semantic Versioning 2.0.0 without build metadata the parsed version is its three numbers. |
| `SkillSelection.OlderOrder` | src/auraclaw/action/skill_packages.py:1410-1455 | Not being older is a total preorder on semantic versions. |
| `SkillSelection.NewestIsNewest` | src/auraclaw/action/skill_packages.py:1410-1455 | The selected item is the first of the fitting items that no fitting item is newer than, and only that one. |
| `SkillSelection.ChoiceIff` | src/auraclaw/action/skill_packages.py:483-516 | A publication is chosen if and only if every usable publication of the wanted name and publisher has a semantic version and this is the first of the newest of them that satisfy the requirement; it is not found exactly when none satisfies it. |
| `SkillSelection.ChoiceMeets` | src/auraclaw/action/skill_packages.py:483-516 | The chosen publication is registered, usable, and meets name, publisher and version. |
| `SkillSelection.ToolSelection` | src/auraclaw/action/skill_packages.py:1410-1432 | A tool requirement is bound to the first of the newest live tools that have its name and satisfy its version, if and only if all of these have semantic versions; it is not found exactly when there is none. |
| `SkillSelection.ResourceSelection` | src/auraclaw/action/skill_packages.py:1435-1455 | The same for a resource requirement, by URI template or name. |
| `SkillResolver.NamesAbsorb` | src/auraclaw/action/skill_packages.py:795-803 | Collecting the active names step by step along a path equals collecting them once. |
| `SkillResolver.AllFineIff` | src/auraclaw/action/skill_packages.py:764-808 | Every chain from a publication is fine exactly when the publication is fine and every chain from each chosen dependency is, one step further down the path. |
| `SkillResolver.ResolveIff` | src/auraclaw/action/skill_packages.py:744-849 | Resolution succeeds exactly when a publication is chosen and every chain of chosen dependencies from it has distinct names and ends in a publication whose role is allowed, whose tools and resources each have a first newest match, whose dependencies can be chosen, and which the policy allows. |
| `SkillResolver.ErrorIsTrue` | src/auraclaw/action/skill_packages.py:744-849 | Every error is true: the requested Skill cannot be chosen for that reason, or some chain of chosen dependencies ends in a publication with exactly the fault the error names. |
| `SkillResolver.CycleRejected` | src/auraclaw/action/skill_packages.py:765-767 | Any chain of chosen dependencies that repeats a name makes resolution fail. |
| `SkillResolver.ReachesIff` | src/auraclaw/action/skill_packages.py:783-808 | The transitive closure of chosen dependencies unfolds one edge at a time. |
| `SkillResolver.ResolveExact` | src/auraclaw/action/skill_packages.py:809-849 | On success the bound Skills are exactly the transitive closure of the chosen dependencies, each once, and tools and resources are exactly the first newest matches of what the root and that closure require: in the order of a depth-first walk, each capability once, under the first requirement that selects it. |
| `SkillResolver.UniqueIsFirst` | src/auraclaw/action/skill_packages.py:1347-1356 | The result holds exactly the items that are the first with their id. |
| `SkillResolver.UniqueRight` | src/auraclaw/action/skill_packages.py:809-825 | Dropping duplicates in each child first gives the same list as dropping them once at the end. |
| `SkillResolver.ResolveInOrder` | src/auraclaw/action/skill_packages.py:809-825 | On success tools and resources are listed in the order in which a depth-first walk of the chosen dependencies requires them, the first of each capability id. |
| `SkillResolver.BoundResourceIsFirst` | src/auraclaw/action/skill_packages.py:816-825 | So a bound resource is the selection of the first requirement along that walk that selects its capability, and every such selection is bound. |
| `ToolGateway.KeyedLocks.Reserve` | src/auraclaw/action/tool_gateway.py:172-174 | Reserving reuses the mapped lock or creates one, and counts one more reference. |
| `ToolGateway.KeyedLocks.RemoveReference` | src/auraclaw/action/tool_gateway.py:189-195 | Giving back the last reference drops the entry; otherwise the count falls by one and the lock stays. |
| `ToolGateway.ResultLedger.Previous` | src/auraclaw/action/tool_gateway.py:668-677 | A caching call finds the recorded result for the same digest, a conflict for another digest, and nothing for a new key. |
| `ToolGateway.ResultLedger.Store` | src/auraclaw/action/tool_gateway.py:788-789 | Only caching tools record, and only their own key. |
| `ToolGateway.OneOwner` | src/auraclaw/action/tool_gateway.py:163-195 | Two calls on one key that both hold their lock are the same call, although lock entries are reclaimed and recreated. |
| `ToolGateway.StepKeeps` | src/auraclaw/action/tool_gateway.py:660-689 | Every step keeps: reference counts equal the live calls, live calls use the mapped lock, each held lock has one owner, and every decided outcome agrees with the ledger. |
| `ToolGateway.RunInv` | src/auraclaw/action/tool_gateway.py:660-689 | The same in every state of every interleaving. |
| `ToolGateway.DispatchesNeverOverlap` | src/auraclaw/action/tool_gateway.py:667-682 | In no state of any run do two calls with the same tenant and idempotency key dispatch. |
| `ToolGateway.FirstRecordStays` | src/auraclaw/action/tool_gateway.py:879-881 | The first recorded digest and result of a key are never replaced; LedgerHasOrigin says which result that is. |
| `ToolGateway.NoDispatchAfterRecord` | src/auraclaw/action/tool_gateway.py:668-682 | After a key is recorded no call of a result-caching tool dispatches or records it again. |
| `ToolGateway.LaterCallsAnswered` | src/auraclaw/action/tool_gateway.py:668-677 | A later call gets the recorded result for the same digest and a conflict for another, and keeps that answer. |
| `ToolGateway.OneResultPerKey` | src/auraclaw/action/tool_gateway.py:660-689 | All caching calls that return a tool result for a key ran the same action and return the same result; ResultReturned says which one. |
| `ToolGateway.EntriesReclaimed` | src/auraclaw/action/tool_gateway.py:189-195 | When all calls have finished no lock entry is left. |
| `ToolResults.ResultReturned` | src/auraclaw/action/tool_gateway.py:660-689 | What a dispatch returns or a denial says is what the call returns for the rest of the run and, for a result-caching tool, what the ledger holds under its key and action. |
| `ToolResults.OutcomeHasOrigin` | src/auraclaw/action/tool_gateway.py:660-689 | Conversely every outcome of a call was given by its own dispatch, denial, timeout, refusal or ledger check. |
| `ToolResults.LedgerHasOrigin` | src/auraclaw/action/tool_gateway.py:879-881 | Every ledger row is the result that a dispatch or denial of a call with that key and action was given. |
| `ToolResults.ReplayHasOrigin` | src/auraclaw/action/tool_gateway.py:668-677 | So a result returned without a dispatch is one that an earlier call of the same key and action was given. |
| `ToolResults.CallIsItsEnter` | src/auraclaw/action/tool_gateway.py:660-667 | A call keeps the key, action and mode it entered with. |
| `ToolResults.CallsAdvance` | src/auraclaw/action/tool_gateway.py:660-689 | Each step of a call takes it strictly further and moves no other call, so a call ends after at most six steps. |
| `ToolResults.CallsCanFinish` | src/auraclaw/action/tool_gateway.py:660-689 | In every state of every run each unfinished call can go on or give up waiting. |
| `ToolResults.LockIsFreeIff` | src/auraclaw/action/tool_gateway.py:163-195 | A waiting call can take its lock exactly when no other call on its key is between taking and releasing it, whatever lock objects came and went. |
| `ExecutionCapacity.Capacity.Admit` | src/auraclaw/action/tool_gateway.py:256-272 | Admission refuses at a full global queue, then at a full tenant queue, and otherwise counts the ticket in both. |
| `ExecutionCapacity.Capacity.Slot` | src/auraclaw/action/tool_gateway.py:276-278 | The tenant semaphore is created once and then shared. |
| `ExecutionCapacity.Capacity.LeaveQueue` | src/auraclaw/action/tool_gateway.py:347-354 | Leaving the queue lowers both counters and drops an empty tenant counter. |
| `ExecutionCapacity.Capacity.MarkStarted` | src/auraclaw/action/tool_gateway.py:324-332 | Starting moves a ticket from the queue counters to the in-flight counters. |
| `ExecutionCapacity.Capacity.MarkFinished` | src/auraclaw/action/tool_gateway.py:334-345 | Finishing lowers the in-flight counters and discards an idle tenant. |
| `ExecutionCapacity.Capacity.DiscardIdleTenant` | src/auraclaw/action/tool_gateway.py:364-366 | The semaphore of a tenant goes exactly when nothing of it is queued or in flight. |
| `ExecutionCapacity.Capacity.Close` | src/auraclaw/action/tool_gateway.py:308-315 | Closing a queued ticket leaves the queue and discards an idle tenant. |
| `ExecutionCapacity.IdleUnused` | src/auraclaw/action/tool_gateway.py:364-366 | A discarded semaphore is used by no ticket that waits for or owns a permit. |
| `ExecutionCapacity.StepKeeps` | src/auraclaw/action/tool_gateway.py:256-366 | Every step keeps the counters exact, the tenant semaphores shared and the permits accounted for. |
| `ExecutionCapacity.CapacityBounds` | src/auraclaw/action/tool_gateway.py:256-345 | In every state at most tenant_limit tickets of a tenant and global_limit overall own permits, the queue counters equal the queued tickets within their limits, and an idle tenant has no semaphore. |
| `ExecutionCapacity.OneSemaphorePerTenant` | src/auraclaw/action/tool_gateway.py:276-278 | Tickets that use permits share a semaphore exactly when they belong to one tenant. |
| `ExecutionCapacity.CountersNeverUnderflow` | src/auraclaw/action/tool_gateway.py:324-354 | No counter is ever decremented below zero: the guards of every later step of a ticket hold. |
| `ExecutionCapacity.RefusedIff` | src/auraclaw/action/tool_gateway.py:256-272 | In every state a ticket is refused exactly when as many tickets as the global queue holds are waiting, or as many of its tenant as the tenant's queue holds. |
| `ExecutionCapacity.PermitIff` | src/auraclaw/action/tool_gateway.py:282-286 | A waiting ticket can take a permit exactly when fewer tickets than the limit own one, of its tenant and then globally. |
| `ExecutionCapacity.TicketsAdvance` | src/auraclaw/action/tool_gateway.py:256-366 | Each step takes its own ticket strictly further and moves no other. |
| `ExecutionCapacity.NeverStuck` | src/auraclaw/action/tool_gateway.py:256-366 | While a ticket is open some ticket has a step that is neither an admission nor a timeout: permits are never lost. |
| `ResourceGateway.Gateway.Read` | src/auraclaw/action/resource_gateway.py:216-241 | A read hits an unexpired entry, joins the registered load, is refused at a full queue, or registers a load with the current generation. |
| `ResourceGateway.Gateway.Invalidate` | src/auraclaw/action/resource_gateway.py:314-331 | Invalidating raises the generation of every affected tenant, removes the covered entries and returns their number. |
| `ResourceGateway.Gateway.Bump` | src/auraclaw/action/resource_gateway.py:321-323 | The loop raises each affected generation by one and no other. |
| `ResourceGateway.Gateway.Store` | src/auraclaw/action/resource_gateway.py:390-409 | A result is cached only at an unchanged generation and revision and a positive time to live. |
| `ResourceGateway.Gateway.Finish` | src/auraclaw/action/resource_gateway.py:414-427 | The end of a load gives back its counter and registration and drops a generation nothing refers to. |
| `ResourceFreshness.InvalidateBumps` | src/auraclaw/action/resource_gateway.py:314-323 | An invalidate raises the generation of a registered load's subject by one exactly when it covers it. |
| `ResourceFreshness.EndSpares` | src/auraclaw/action/resource_gateway.py:422-427 | The end of another load never changes the generation of a subject that still has a registered load. |
| `ResourceFreshness.GenerationKept` | src/auraclaw/action/resource_gateway.py:314-427 | While a load is live, each step leaves its subject's generation alone, or raises it by one when it is a covering invalidate. |
| `ResourceFreshness.CachedEntriesAreFresh` | src/auraclaw/action/resource_gateway.py:390-427 | Every cached entry came from a load created after the last invalidate covering its tenant and URI, and its data was taken after that, although generation counters restart from zero. |
| `ResourceFreshness.GenerationCurrentIff` | src/auraclaw/action/resource_gateway.py:227-241 | A registered load carries the current generation exactly when no covering invalidate came since it was created. |
| `ResourceAnswers.CacheStep` | src/auraclaw/action/resource_gateway.py:314-409 | A cache entry changes only when the end of a load stores it under the three conditions or an invalidate of its URI removes it. |
| `ResourceAnswers.CachedIff` | src/auraclaw/action/resource_gateway.py:390-409 | An entry is cached if and only if a load stored it and no later step replaced or invalidated it. |
| `ResourceAnswers.HitIff` | src/auraclaw/action/resource_gateway.py:216-219 | A read is answered from the cache if and only if a load of its key was stored less than the time to live ago and no later step replaced or invalidated it. |
| `ResourceAnswers.MissIff` | src/auraclaw/action/resource_gateway.py:220-241 | Any other read joins the running load of its key; without one it is refused exactly when as many loads are queued as may be, and otherwise begins a load at the current generation. |
| `ResourceJoins.CounterUnchangedIff` | src/auraclaw/action/resource_gateway.py:314-323 | While a load lives its subject's generation never falls and is unchanged between two states exactly when no covering invalidate came in between. |
| `ResourceJoins.JoinedDataFreshIff` | src/auraclaw/action/resource_gateway.py:220-257 | A read that joins a registered load gets data taken after every covering invalidate before the join exactly when at the join the data was not taken yet or the generation is what it was when it was taken. |
| `ResourceJoins.StaleJoinExists` | src/auraclaw/action/resource_gateway.py:376-389 | A run in which a load fetches its data, an invalidate comes, and a later read joins the load. |
| `ResourceJoins.LateFetchIsFresh` | src/auraclaw/action/resource_gateway.py:376-389 | A run in which the joined load carries an outdated generation but fetches after the invalidate, so the generation alone does not decide. |
| `ResourceGateway.LoadBounds` | src/auraclaw/action/resource_gateway.py:358-363 | At most one live load per key, queue and in-flight counters exact, queue and permits within their limits. |
| `ResourceGateway.LoadsCanFinish` | src/auraclaw/action/resource_gateway.py:411-418 | The counters never underflow. |
| `ResourceGateway.LoadsAdvance` | src/auraclaw/action/resource_gateway.py:333-427 | Each step of a load takes it strictly further and moves no other load. |
| `ResourceGateway.AcquireIff` | src/auraclaw/action/resource_gateway.py:345-357 | A queued load can start exactly when fewer loads than allowed own a permit. |
| `ResourceGateway.NeverStuck` | src/auraclaw/action/resource_gateway.py:333-427 | While a load is unfinished some load has a step that is neither a timeout nor a failure. |
| `ResourceGateway.EndReclaims` | src/auraclaw/action/resource_gateway.py:422-427 | The end of a load leaves a generation counter only while the subject has a load or an entry. |
| `ResourceGateway.InvalidateRemoves` | src/auraclaw/action/resource_gateway.py:314-331 | An invalidate removes exactly the entries of the URI, of one tenant or of all, and returns their number. |
| `SkillRebuild.Rebuilder.Request` | src/auraclaw/action/skill_rebuild.py:100-107 | A request raises the generation and joins the registered task or registers a new one. |
| `SkillRebuild.Rebuilder.Check` | src/auraclaw/action/skill_rebuild.py:125-131 | A pass is final exactly when no request arrived since its capture; only the registered task deregisters. |
| `SkillRebuild.Rebuilder.Forget` | src/auraclaw/action/skill_rebuild.py:133-137 | Deregistration removes both entries, and only for the registered task. |
| `SkillRebuild.StepKeeps` | src/auraclaw/action/skill_rebuild.py:99-137 | Every step keeps: one registered looping task per tenant, and the captured generation tells whether a request joined. |
| `SkillRebuild.ResultsComeFromLaterPasses` | src/auraclaw/action/skill_rebuild.py:99-131 | Every caller that gets a result gets one from a pass that began after its own request. |
| `SkillRebuild.CallerStampIsItsRequest` | src/auraclaw/action/skill_rebuild.py:99-108 | The time the theorem speaks of is that of the caller's own request. |
| `SkillRebuild.PassStampIsItsStart` | src/auraclaw/action/skill_rebuild.py:117-119 | The pass time is that of the step that began the pass. |
| `SkillRebuild.OneLoopingTaskPerTenant` | src/auraclaw/action/skill_rebuild.py:104-107 | At most one task per tenant can still run passes, and it is the registered one. |
| `SkillRebuild.LoopsIffJoined` | src/auraclaw/action/skill_rebuild.py:125-131 | A task runs another pass exactly when a request joined after its capture, and the generation it reads is always there. |
| `SkillRebuild.RequestJoins` | src/auraclaw/action/skill_rebuild.py:100-107 | A request joins the registered task of its tenant and begins one otherwise. |
| `SkillRebuild.TasksAdvance` | src/auraclaw/action/skill_rebuild.py:110-137 | Each step of a task takes it to the next stage of its round; only a check begins another round. |
| `SkillRebuild.TasksCanGoOn` | src/auraclaw/action/skill_rebuild.py:110-137 | In every state each task that is not done has a step. |
| `SkillContentCache.Cache.Lookup` | src/auraclaw/action/skill_content_cache.py:68-90 | A lookup hits an unexpired entry and moves it to the recent end, removes an expired one, and joins or registers a load. |
| `SkillContentCache.Cache.Insert` | src/auraclaw/action/skill_content_cache.py:152-163 | A package that fits is inserted at the recent end with its expiry, and the returned number of entries goes from the old end; a larger one is not cached and evicts nothing. |
| `SkillContentCache.Cache.EvictLocked` | src/auraclaw/action/skill_content_cache.py:180-189 | The loop drops a prefix and adjusts the byte count. |
| `SkillContentCache.Cache.RemoveLocked` | src/auraclaw/action/skill_content_cache.py:191-194 | Removing a present key subtracts its size; a missing one changes nothing. |
| `SkillContentCache.Cache.Unregister` | src/auraclaw/action/skill_content_cache.py:175-178 | Only the registered load deregisters its key. |
| `SkillContentCache.Cache.PruneTenant` | src/auraclaw/action/skill_content_cache.py:103-111 | Pruning one by one leaves exactly the entries of other tenants and retained digests, in order, and returns how many went. |
| `SkillContentCache.EvictionIsMinimal` | src/auraclaw/action/skill_content_cache.py:180-189 | Eviction drops the shortest prefix after which both bounds hold. |
| `SkillContentCache.InsertedSurvives` | src/auraclaw/action/skill_content_cache.py:153-161 | An entry that fits is never evicted by its own insertion, and both bounds hold afterwards. |
| `SkillContentCache.StepKeeps` | src/auraclaw/action/skill_content_cache.py:65-189 | Every step keeps exact byte accounting, both bounds, digest agreement, single flight, absence of keys that are being fetched, and the order of use. |
| `SkillContentCache.CacheBounds` | src/auraclaw/action/skill_content_cache.py:65-189 | In every state resident bytes equal the sum of the sizes, both capacity bounds hold, one unfinished load per key, and a fetching key is absent. |
| `SkillContentCache.HitsMatch` | src/auraclaw/action/skill_content_cache.py:69-73 | A hit returns an unexpired package with the digest that was asked for. |
| `SkillContentCache.InsertEvictsOldest` | src/auraclaw/action/skill_content_cache.py:152-189 | An evicted entry was last used before every entry that stays. |
| `SkillContentAnswers.LookupStep` | src/auraclaw/action/skill_content_cache.py:68-90 | A lookup drops the slot of its key when that has expired, and no other. |
| `SkillContentAnswers.PruneStep` | src/auraclaw/action/skill_content_cache.py:99-111 | Pruning removes exactly the tenant's slots whose digest is not retained. |
| `SkillContentAnswers.EntryHasOrigin` | src/auraclaw/action/skill_content_cache.py:152-163 | Every cached package was inserted by a download of its key. |
| `SkillContentAnswers.HitIff` | src/auraclaw/action/skill_content_cache.py:68-73 | A lookup is a hit if and only if a slot of its key is there and unexpired; it was then inserted, with the digest asked for, less than the time to live ago. |
| `SkillContentAnswers.InsertedIsHit` | src/auraclaw/action/skill_content_cache.py:152-163 | Right after a package that fits was inserted a lookup finds it until it expires. |
| `SkillContentAnswers.MissIff` | src/auraclaw/action/skill_content_cache.py:74-90 | Any other lookup joins the unfinished download of its key, or begins one when there is none. |
| `SkillContentAnswers.LoadsAdvance` | src/auraclaw/action/skill_content_cache.py:113-178 | A download is settled once and then ends; only its own steps move it. |
| `BoundedMap.Scheduler.Acquire` | src/auraclaw/action/bounded.py:70-84 | A scan claims the earliest pending item whose keys are all below their limits, or finds that there is none. |
| `BoundedMap.Scheduler.Take` | src/auraclaw/action/bounded.py:80-81 | Claiming raises each of the item's counters by one. |
| `BoundedMap.Scheduler.Release` | src/auraclaw/action/bounded.py:86-91 | Releasing lowers each of the item's counters by one and deletes those that reach zero. |
| `BoundedMap.RaisedAt` | src/auraclaw/action/bounded.py:80-81 | Exactly the item's own counters go up, by one. |
| `BoundedMap.LoweredAt` | src/auraclaw/action/bounded.py:88-91 | Exactly the item's own counters go down, by one. |
| `BoundedMap.StepKeeps` | src/auraclaw/action/bounded.py:70-100 | Every step keeps counters exact and within limits, each item pending or started once, and a holder for every waiter. |
| `BoundedMap.ConcurrencyBounds` | src/auraclaw/action/bounded.py:61-105 | In every state each counter equals the holders of its key, within the partition limit, and all holders stay within max_concurrent. |
| `BoundedMap.BlockedHasHolder` | src/auraclaw/action/bounded.py:72-83 | A worker that finds nothing eligible is blocked by some other holder. |
| `BoundedMap.NeverStuck` | src/auraclaw/action/bounded.py:72-100 | While a worker is unfinished some step is possible: the map never deadlocks. |
| `BoundedMap.WorkDrops` | src/auraclaw/action/bounded.py:94-105 | Every step lowers a measure. |
| `BoundedMap.RunIsBounded` | src/auraclaw/action/bounded.py:94-112 | A run has at most as many steps as the work it starts with. |
| `BoundedMap.EveryItemOnce` | src/auraclaw/action/bounded.py:94-113 | When all workers have finished and no callback raised, every item was started and returned once and result i is what the callback on item i returned. |
| `BoundedMap.PendingInOrder` | src/auraclaw/action/bounded.py:65-82 | The pending list keeps the order of the items. |
| `BoundedMap.ScanIff` | src/auraclaw/action/bounded.py:70-84 | In every state an idle worker claims the earliest pending item all of whose keys have fewer holders than their limit, waits exactly when items are pending and none has room, and stops exactly when none is pending. |
| `VersionOrder.KeyOrder` | src/auraclaw/action/skill_lifecycle.py:959-969 | Version keys are strictly and totally ordered. |
| `VersionOrder.VersionPreorder` | src/auraclaw/action/skill_lifecycle.py:959-969 | Comparing versions by key is a total preorder; equivalence means equal keys. |
| `VersionOrder.WellFormedHasKey` | src/auraclaw/contracts/skills.py:14 | Every version the contract pattern admits has a key with three numbers. |
| `VersionOrder.SameKeyIff` | src/auraclaw/action/skill_lifecycle.py:959-969 | Two admitted versions have one key exactly when their numbers agree, both or neither have a hyphen, and their identifiers agree once empty ones are dropped and numbers lose leading zeros. |
| `VersionOrder.KeysCollide` | src/auraclaw/action/skill_lifecycle.py:959-969 | So the order is not antisymmetric: a pair of different admitted versions with one key. |
| `VersionOrder.RenderedKeysDiffer` | src/auraclaw/action/skill_lifecycle.py:959-969 | On versions of Semantic Versioning 2.0.0 without build metadata equal keys mean equal versions. |
| `VersionOrder.RenderWellFormed` | src/auraclaw/contracts/skills.py:14 | Every version of Semantic Versioning 2.0.0 without build metadata is admitted. |
| `VersionOrder.KeyOrderIsPrecedence` | src/auraclaw/action/skill_lifecycle.py:959-969 | On those versions the key order is exactly the precedence of item 11 of Semantic Versioning 2.0.0, stated there without the key. |
| `SkillLifecycle.LifecycleStore.PutPackage` | src/auraclaw/action/skill_lifecycle.py:727-746 | A stored version keeps its digest; a new one is stored unless its digest belongs to another version. |
| `SkillLifecycle.LifecycleStore.PutPublication` | src/auraclaw/action/skill_lifecycle.py:792-808 | The guards compute the specified error; a stored publication has a package of its key and digest, is the next revision of the one it replaces and keeps its digest. |
| `SkillLifecycle.LifecycleStore.PutInstallation` | src/auraclaw/action/skill_lifecycle.py:833-842 | An installation is stored exactly when the stored revision, or zero, is the expected one and the new revision is one higher. |
| `SkillLifecycle.LifecycleStore.ReplacePurged` | src/auraclaw/action/skill_lifecycle.py:628-670 | Replacement checks every precondition before it changes anything; then package, publication and pin carry one digest, both revisions rise by one, and the purged package becomes the last tombstone. |
| `SkillLifecycle.LifecycleStore.Write` | src/auraclaw/action/skill_lifecycle.py:560-598 | The in-place writes, including those before a failure, compute the specified dictionaries or error. |
| `SkillLifecycle.LifecycleStore.SupersedeOthers` | src/auraclaw/action/skill_lifecycle.py:605-612 | The loop revokes exactly the other active versions of the Skill. |
| `SkillLifecycle.LifecycleStore.CommitPublish` | src/auraclaw/action/skill_lifecycle.py:527-626 | Mutation with snapshot and rollback refines the atomic specification: on any error the store is as before. |
| `SkillLifecycle.LifecycleStore.CommitInstallationChange` | src/auraclaw/action/skill_lifecycle.py:849-871 | A repeated command changes nothing; a new one writes the next revision or fails without effect. |
| `SkillLifecycle.LifecycleStore.CommitRestore` | src/auraclaw/action/skill_lifecycle.py:885-915 | Restoring moves a retired publication to restoring at its next revision, once per command. |
| `SkillLifecycle.LifecycleStore.RemoveReplaced` | src/auraclaw/action/skill_lifecycle.py:356-397 | Removal happens only for the claim owner and a replaced, unpinned, revoked and cancelled version without legal hold. |
| `SkillLifecycle.LifecycleStore.MayRemove` | src/auraclaw/action/skill_lifecycle.py:360-377 | The chain of guards is the stated removal condition. |
| `SkillLifecycle.LifecycleStore.Erase` | src/auraclaw/action/skill_lifecycle.py:378-397 | Erasing removes package and publication together, its tombstones, its command results and their outbox rows, but no command id. |
| `SkillLifecycle.LifecycleStore.FilterTombstones` | src/auraclaw/action/skill_lifecycle.py:380-384 | The loop drops exactly the tombstones of that package, in order. |
| `SkillLifecycle.LifecycleStore.ForgetResults` | src/auraclaw/action/skill_lifecycle.py:385-393 | The loop takes the result from exactly the commands that published the package, keeps their digests and returns their ids. |
| `SkillLifecycle.LifecycleStore.DropOutbox` | src/auraclaw/action/skill_lifecycle.py:394-396 | The loop removes exactly the outbox rows of those commands. |
| `SkillPublication.BuildsWell` | src/auraclaw/action/skill_publication.py:220-481 | Every commit the service builds, however old its reads, ties publication, installation and upgrade to its package; what exactly a current one leaves is FreshPublishLeaves. |
| `SkillPublication.CommitIsAtomic` | src/auraclaw/action/skill_lifecycle.py:527-626 | A failed or repeated commit changes nothing; a first one changes exactly its own package, publication and installation, supersedes the other active versions only as an upgrade, and adds one command and one outbox row. |
| `SkillPublication.PublicationStepEffect` | src/auraclaw/action/skill_lifecycle.py:792-808 | The publication write of a commit changes only its own key: the wanted status, the package digest, and a revision that does not fall. |
| `SkillPublication.ReplacedEffect` | src/auraclaw/action/skill_lifecycle.py:628-670 | A replacement changes exactly the package, publication and installation of its own Skill and adds one tombstone, the package it replaces. |
| `SkillPublicationRuns.InstallationWritten` | src/auraclaw/action/skill_lifecycle.py:833-842 | A management write that the store accepts was built from the current record, so the pin it carries is the current one. |
| `SkillPublicationRuns.CommitBacked` | src/auraclaw/action/skill_lifecycle.py:556-604 | A commit keeps a package with equal digest under every publication. |
| `SkillPublicationRuns.CommitPinBacked` | src/auraclaw/action/skill_lifecycle.py:556-615 | A commit keeps every installation pinned to a published version with the pinned digest. |
| `SkillPublicationRuns.RemoveKept` | src/auraclaw/action/skill_lifecycle.py:356-397 | Removal never takes the pinned version and keeps both invariants. |
| `SkillPublicationRuns.TransitionKept` | src/auraclaw/action/skill_lifecycle.py:792-808 | Revoking, retiring or quarantining keeps both invariants. |
| `SkillPublicationRuns.RestoreKept` | src/auraclaw/action/skill_lifecycle.py:885-915 | Restoring keeps both invariants. |
| `SkillPublicationRuns.ChangeKept` | src/auraclaw/action/skill_management.py:137-197 | Changing an installation from an old read writes nothing or moves the current record, and the pin stays. |
| `SkillPublicationRuns.DrainKept` | src/auraclaw/action/skill_management.py:199-232 | The same for the drainer. |
| `SkillPublicationRuns.PublicationsHavePackages` | src/auraclaw/action/skill_lifecycle.py:527-808 | In every reachable state packages and publications have the same keys and equal digests, and each installation is pinned to such a publication that is not staged. |
| `SkillPublicationRuns.StepNeverDowngrades` | src/auraclaw/action/skill_lifecycle.py:544-555 | No step of any kind lowers a pinned version or forgets an installation. |
| `SkillPublicationRuns.PinNeverGoesDown` | src/auraclaw/action/skill_lifecycle.py:972-992 | Over any run with any interleaving of publishes the pinned version never goes down. |
| `SkillPublicationRuns.ReplayChangesNothing` | src/auraclaw/action/skill_lifecycle.py:530-543 | Once a command has committed, its id never changes the store again: the same digest is answered or refused as removed, another digest is refused as reused. |
| `SkillActiveVersion.ActiveIsPinnedIffCovered` | src/auraclaw/action/skill_lifecycle.py:605-615 | For any commit given to the store: it keeps every active version pinned exactly when it activates nothing, upgrades, activates the pinned version, or installs a Skill that is not installed. |
| `SkillActiveVersion.CommitNowIsCovered` | src/auraclaw/action/skill_publication.py:440-481 | Every commit the service builds meets that condition, however old its other reads, because the installation is read again in the step that commits. |
| `SkillActiveVersion.FreshAcceptedIff` | src/auraclaw/action/skill_publication.py:220-276 | A request with current reads is accepted if and only if, for an activation, the installation is at the expected revision or the command was seen with this content, no later version was published and policy admits a changed pin; and the version is new, or purged and to be replaced, or has the digest and either the wanted status or is staged or restoring at the expected revision. |
| `SkillActiveVersion.FreshPublishCommits` | src/auraclaw/action/skill_publication.py:220-481 | What the service decides to publish in one step the store always accepts. |
| `SkillActiveVersion.FreshPublishDelivers` | src/auraclaw/action/skill_publication.py:369-481 | Then an activation leaves the requested digest active and pinned, and staging leaves the installations alone. |
| `SkillActiveVersion.ActiveStaysPinned` | src/auraclaw/action/skill_publication.py:421-481 | In every state of every run every active version is the pinned one. |
| `SkillActiveVersion.OneActiveVersion` | src/auraclaw/action/skill_publication.py:421-481 | In every state of every run, with any interleaving of publishes, at most one version of a Skill is active, and it is the pinned one. |
| `SkillActiveVersion.ActivationsAre` | src/auraclaw/action/skill_publication.py:220-276 | In every step of every run only a publish activates a version, and only its own: a new one, a purged one of an uninstalled Skill, or one it saw staged or restoring at the stored revision. |
| `SkillActiveVersion.FreshPublishRevivesNone` | src/auraclaw/action/skill_publication.py:220-276 | So a publish with current reads activates no other version, and its own only from staged or restoring or as the replacement of a purged one: nothing quarantined or retired is revived, nor anything revoked that is not purged and uninstalled. |
| `SkillStoreLaws.FreshPublishLeaves` | src/auraclaw/action/skill_publication.py:278-481 | The exact package, publication and installation a first publish leaves: revision, status, action and pin of each, for a new, a repeated, a purged and a staged version. |
| `SkillStoreLaws.PublishSupersedes` | src/auraclaw/action/skill_lifecycle.py:599-615 | Moving the pin revokes every other active version of the Skill with its runs continuing and begins a draining upgrade at the new revision; otherwise no other version changes. |
| `SkillStoreLaws.CommitAcceptedIff` | src/auraclaw/action/skill_lifecycle.py:544-670 | The store accepts a first commit that the service built, however old its reads, if and only if nothing it relies on has changed: installation revision and later versions for an upgrade, status, hold and revisions for a replacement, digest and revision otherwise. |
| `SkillStoreLaws.RepeatedPublish` | src/auraclaw/action/skill_lifecycle.py:530-543 | A repeated publish changes nothing; it is refused for other content or when the version was removed, and otherwise answered as before with the publication as it is now. |
| `SkillStoreLaws.PackageGoneIff` | src/auraclaw/action/skill_lifecycle.py:356-379 | In every step a stored package disappears if and only if the holder of the running cleanup claim removes it and it is replaced, under no legal hold, not pinned, and revoked with its runs cancelled. |
| `SkillStoreLaws.RemovalIff` | src/auraclaw/action/skill_lifecycle.py:360-377 | A removal goes through if and only if that holds, also when the package is only a tombstone. |
| `SkillStoreLaws.RemovalLeaves` | src/auraclaw/action/skill_lifecycle.py:380-397 | A removal takes exactly the package's tombstones, the results of the commands that published it and their outbox rows; the commands stay known. |
| `SkillStoreLaws.OtherPublicationStep` | src/auraclaw/action/skill_lifecycle.py:792-915 | Besides publishing, a publication changes exactly by a transition of the stored revision, by restoring a retired version, or with its package's removal. |
| `SkillStoreLaws.RestoreAnswerIs` | src/auraclaw/action/skill_lifecycle.py:885-915 | A first restore succeeds if and only if the version is retired at the expected revision and the record is its next one; a repeated one shows the version as it is now, or is refused. |
| `SkillStoreLaws.RestoreIsRemembered` | src/auraclaw/action/skill_lifecycle.py:885-915 | Over any run a restore stays remembered with its content, so its command never restores again. |
| `SkillStoreLaws.RetentionStep` | src/auraclaw/action/skill_lifecycle.py:776-790 | Besides publishing and removal, a package changes exactly by a retention write of the next revision with its own digest. |
| `SkillStoreLaws.OtherInstallationStep` | src/auraclaw/action/skill_management.py:137-232 | Besides publishing, an installation changes exactly when management moves the current record to another status under a new command, or when the drainer uninstalls it. |
| `SkillStoreLaws.ChangeAnswerIs` | src/auraclaw/action/skill_lifecycle.py:849-871 | A first management command succeeds if and only if it moves the current record, and answers with what it wrote; a repeated one shows the current record, or is refused. |
| `SkillStoreLaws.ChangeIsRemembered` | src/auraclaw/action/skill_lifecycle.py:849-871 | Over any run it stays remembered with its content and Skill. |
| `SkillStoreLaws.CleanupStep` | src/auraclaw/action/skill_lifecycle.py:301-354 | A cleanup claim is taken exactly when the upgrade is current, not completed and unclaimed or its claim has run out; its holder alone renews it, and gives it back with every phase but deleting. |
| `SkillStoreLaws.PhaseStep` | src/auraclaw/action/skill_lifecycle.py:340-354 | The phase of an upgrade is set by the holder of the running claim and by nobody else. |
| `AdmissionPages.PageShape` | src/auraclaw/action/skill_lifecycle.py:485-510 | A page holds the greatest matching records below its cursor, and its next cursor bounds what is left. |
| `AdmissionPages.WalkNeverRepeats` | src/auraclaw/action/skill_lifecycle.py:485-510 | Over arbitrarily changing logs a walk returns strictly descending keys, so no record twice. |
| `AdmissionPages.FinishedWalkIsComplete` | src/auraclaw/action/skill_lifecycle.py:485-510 | A finished walk has returned every matching record that was in the log throughout. |
| `AdmissionPages.FixedLogPagesConcatenate` | src/auraclaw/action/skill_lifecycle.py:485-510 | On a log that does not change the pages concatenate to the full descending list. |
| `AdmissionPages.FixedLogProgress` | src/auraclaw/action/skill_lifecycle.py:503-510 | There a walk with a next cursor has returned only full pages and continues with the rest of the list. |
| `AdmissionPages.FinishedWalkLength` | src/auraclaw/action/skill_lifecycle.py:503-510 | There a finished walk has as many pages as the list needs, and one when nothing matches. |
| `AdmissionPages.WalkCanFinish` | src/auraclaw/action/skill_lifecycle.py:485-510 | There every walk that is not finished can be continued to a finished one. |
| `AdmissionPages.ListingDescends` | src/auraclaw/action/skill_lifecycle.py:486-502 | The listing is sorted strictly downwards. |
| `AdmissionPages.ListingHolds` | src/auraclaw/action/skill_lifecycle.py:486-502 | The listing holds exactly the wanted records. |
| `AdmissionPages.ListingIff` | src/auraclaw/action/skill_lifecycle.py:485-502 | Spelled out: the records of the tenant that have the asked outcome, stage and policy version, are not older than asked, and lie below the cursor. |
| `AdmissionPages.ZeroLimitReturnsNothing` | src/auraclaw/action/skill_lifecycle.py:503-510 | A limit of zero ends the walk with nothing returned, so completeness needs a positive limit. |
| `CapabilityCatalog.CatalogStore.UpsertServer` | src/auraclaw/action/capability_catalog.py:144-157 | A definition with an older configuration revision is ignored unless rollback is allowed. |
| `CapabilityCatalog.CatalogStore.ClaimReconcile` | src/auraclaw/action/capability_catalog.py:219-239 | A lease is granted only when none runs and the server exists, and records revision and generation. |
| `CapabilityCatalog.CatalogStore.ReleaseReconcile` | src/auraclaw/action/capability_catalog.py:241-244 | Only the identical lease is released. |
| `CapabilityCatalog.CatalogStore.ReplaceCapabilities` | src/auraclaw/action/capability_catalog.py:178-217 | A commit needs the stored, running lease, the same revision and generation; an equal digest changes nothing; otherwise the new store is the specified one, of which CommitPuts, CommitSpares and CommitAnswerIs say every entry and answer. |
| `CapabilityCatalog.CatalogStore.RemoveServer` | src/auraclaw/action/capability_catalog.py:300-311 | Removal forgets everything about the server and nothing else. |
| `CapabilityCatalog.IndexCapabilities` | src/auraclaw/action/capability_search.py:149-173 | Every capability gets an index entry stamped with the given generation. |
| `CapabilityCatalog.CommitStamps` | src/auraclaw/action/capability_catalog.py:495-553 | A commit leaves every capability stamped with its server's generation and readable by its index reader; which capabilities those are is CommitHolds. |
| `CapabilityCatalog.CommitHolds` | src/auraclaw/action/capability_catalog.py:195-217 | What the catalog holds of the server after a commit is exactly the ids of the committed snapshot. |
| `CapabilityCatalog.CommitPuts` | src/auraclaw/action/capability_catalog.py:195-217 | Under each id it holds the snapshot's last entry with that id, stamped with the next generation and indexed. |
| `CapabilityCatalog.CommitSpares` | src/auraclaw/action/capability_catalog.py:195-217 | Under any other id exactly the capabilities of other servers stay. |
| `CapabilityCatalog.CatalogIsLastCommit` | src/auraclaw/action/capability_catalog.py:195-217 | In every state of every run the catalog holds of a server exactly its last committed snapshot, until the server is removed or another commit claims one of its ids. |
| `CapabilityCatalog.ReadIndexIff` | src/auraclaw/action/capability_search.py:176-207 | An index entry is read if and only if it was built for this capability at its current generation and content, with this model and the current policy and template. |
| `CapabilityCatalog.OneGenerationPerServer` | src/auraclaw/action/capability_search.py:200-207 | In every state all capabilities of a server carry its current generation, and every entry of an indexed snapshot passes its reader's checks. |
| `CapabilityCatalog.GenerationCountsCommits` | src/auraclaw/action/capability_catalog.py:194-214 | Until the server is removed its generation rises by exactly one per committed snapshot. |
| `CapabilityCatalog.CommitMeansUndisturbed` | src/auraclaw/action/capability_catalog.py:180-187 | A commit succeeds only if no other snapshot of the server was committed since its lease was granted. |
| `CapabilityCatalog.LeaseCommitsOnce` | src/auraclaw/action/capability_catalog.py:180-187 | A granted lease commits at most one snapshot, even across removal and reuse of token values. |
| `CatalogLeases.ServerIsLastStored` | src/auraclaw/action/capability_catalog.py:144-157 | The definition of a server is the last one stored, that is, the last upsert that may roll back, has or meets no revision, or is not older. |
| `CatalogLeases.RevisionKeptIff` | src/auraclaw/action/capability_catalog.py:144-157 | A step keeps or raises a server's revision if and only if it does not remove the server, upsert it without a revision, or roll it back. |
| `CatalogLeases.RevisionNeverFalls` | src/auraclaw/action/capability_catalog.py:144-157 | So over any run without such a step the revision never falls. |
| `CatalogLeases.RevisionCanFall` | src/auraclaw/action/capability_catalog.py:144-157 | A run of three upserts, none of which may roll back, that lowers the revision. |
| `CatalogLeases.LeaseStep` | src/auraclaw/action/capability_catalog.py:219-244 | The lease of a server is set exactly by a grant, with the next token, the current revision and generation, and goes exactly by the release of that very lease or the removal of its server. |
| `CatalogLeases.TokensGrow` | src/auraclaw/action/capability_catalog.py:219-244 | While nothing lets go of the lease, each grant has a greater token than all before it. |
| `CatalogLeases.LeasesNeverOverlap` | src/auraclaw/action/capability_catalog.py:219-239 | Of two grants of a server the first had run out when the second was given, unless something let go of it. |
| `CatalogLeases.CommitAnswerIs` | src/auraclaw/action/capability_catalog.py:178-217 | A snapshot is committed exactly by the holder of the running lease of the current revision and generation, and only if it differs from the committed one; anyone else is told that it is stale. |
| `CatalogLeases.CommitMeansHeld` | src/auraclaw/action/capability_catalog.py:178-217 | So under a granted lease a commit succeeds only before it expires, with no other grant, removal or release in between. |
| `CatalogLeases.DigestStep` | src/auraclaw/action/capability_catalog.py:195-217 | The committed digest of a server changes exactly with its commits and its removal. |
| `CatalogLeases.GenerationStep` | src/auraclaw/action/capability_catalog.py:195-217 | So does its generation, which a commit sets to the one after the lease's. |
| `CatalogLeases.CommitIff` | src/auraclaw/action/capability_catalog.py:178-217 | A publish commits if and only if it holds the lease, its digest differs from the committed one and all its capabilities are of the server. |
| `CatalogReconciler.ToolRegistry.PrepareOwner` | src/auraclaw/action/tool_gateway.py:118-136 | The loop computes the prepared registry or the first error and changes nothing. |
| `CatalogReconciler.ToolRegistry.ReplaceOwner` | src/auraclaw/action/tool_gateway.py:138-142 | A refused update leaves the registry as it was. |
| `CatalogReconciler.ToolRegistry.RevokeOwner` | src/auraclaw/action/tool_gateway.py:144-151 | Exactly the owner's tools go. |
| `CatalogReconciler.PreparedIff` | src/auraclaw/action/tool_gateway.py:118-142 | An update is accepted exactly when its tools are the owner's, have distinct keys and change no registered tool; then the owner has exactly these tools and no other tool is touched. |
| `CatalogReconciler.Reconciler.BlockServer` | src/auraclaw/action/catalog_reconciler.py:702-713 | Blocking raises the epoch by one, leaves no tool, route or snapshot of the server, and changes nothing of any other server. |
| `CatalogReconciler.BlockTakesDown` | src/auraclaw/action/catalog_reconciler.py:702-713 | The same of the specification that the runs use. |
| `CatalogReconciler.Reconciler.Install` | src/auraclaw/action/catalog_reconciler.py:573-592 | An install takes effect only at the captured epoch and connector and for an acceptable update; a hydrating pass that may not install takes the server down while the epoch is its own. |
| `CatalogReconciler.StepEpoch` | src/auraclaw/action/catalog_reconciler.py:702-713 | No step lowers an epoch; blocking and revoking raise it and leave nothing installed. |
| `CatalogReconciler.ConnectorsNeverReturn` | src/auraclaw/action/catalog_reconciler.py:329-347 | A connector that was replaced or removed is never current again. |
| `CatalogReconciler.InstallIsCurrentThroughout` | src/auraclaw/action/catalog_reconciler.py:329-358 | When an install takes effect its captured epoch and connector were current in every state since the pass began. |
| `CatalogReconciler.BlockedPassNeverInstalls` | src/auraclaw/action/catalog_reconciler.py:557-592 | A pass that began before its server was blocked or revoked never installs, even after a new connector is registered. |
| `CatalogReconciler.RevokedStaysDown` | src/auraclaw/action/catalog_reconciler.py:702-713 | After a revoke no tools, routes or snapshot of the server are installed until a connector is registered. |
| `CatalogReconciler.InstallsIff` | src/auraclaw/action/catalog_reconciler.py:329-347 | A pass installs if and only if the epoch and connector it captured are still current and the update is acceptable. |
| `CatalogReconciler.InstalledTool` | src/auraclaw/action/tool_gateway.py:118-142 | After an effective install a tool key has the update's tool, or else what another server had there. |
| `CatalogReconciler.InstalledRoute` | src/auraclaw/action/catalog_reconciler.py:348-358 | A route name leads to the pass's server and connector exactly for the update's tools, other servers' routes stay, and the snapshot recorded is the one of the installed generation. |
| `CatalogReconciler.RefusedInstall` | src/auraclaw/action/catalog_reconciler.py:587-592 | A pass that may not install leaves everything, except that a hydrating one takes its server down while the epoch is its own. |
| `CatalogReconciler.BeginCaptures` | src/auraclaw/action/catalog_reconciler.py:555-561 | A pass that nothing disturbs installs every acceptable update. |
| `CatalogReconciler.PassInstallsOnce` | src/auraclaw/action/catalog_reconciler.py:329-358 | No pass installs twice. |
| `CatalogReconciler.ConnectorStep` | src/auraclaw/action/catalog_reconciler.py:702-713 | A server gets a connector nobody had before by registering, loses it by a revoke, and no other step touches it. |
| `McpRegistry.RegistryStore.ClaimOperation` | src/auraclaw/action/mcp_registry.py:222-263 | A new command is granted; a repeated one is refused, refused as reused for another digest, or recorded as unknown side effect when its claim ran out. |
| `McpRegistry.RegistryStore.RenewOperation` | src/auraclaw/action/mcp_registry.py:265-286 | Only the holder of a running claim renews it. |
| `McpRegistry.RegistryStore.SetDesiredState` | src/auraclaw/action/mcp_registry.py:191-220 | A lost claim, a missing server and a stale revision are refused without effect. |
| `McpRegistry.RegistryStore.CompleteOperation` | src/auraclaw/action/mcp_registry.py:288-302 | A late completion returns the stored record and changes nothing; a timely one saves and ends the claim. |
| `McpRegistry.StepKeeps` | src/auraclaw/action/mcp_registry.py:191-302 | Every step keeps: commands name stored operations, a running granted operation is the granted record, and an ended one has no running claim. |
| `McpRegistry.OneGrantPerCommand` | src/auraclaw/action/mcp_registry.py:231-263 | For each tenant and command at most one execution is ever granted. |
| `McpRegistry.TerminalStays` | src/auraclaw/action/mcp_registry.py:239-302 | Once a granted operation has left RUNNING its record never changes. |
| `McpRegistry.LostStaysLost` | src/auraclaw/action/mcp_registry.py:374-376 | A claim that ran out or ended never becomes active again. |
| `McpRegistry.LateHolderIsPowerless` | src/auraclaw/action/mcp_registry.py:742-827 | From then on its holder can neither renew nor set desired state, and completing returns the stored record. |
| `McpClaims.ServerStep` | src/auraclaw/action/mcp_registry.py:191-220 | In every step a server changes exactly by a configuration write or by the holder of a running claim at the expected revision, to the given state and active revision. |
| `McpClaims.ClaimStep` | src/auraclaw/action/mcp_registry.py:222-302 | A claim comes with its grant, is extended by its holder while it runs, ends with the completion, and is touched by nothing else. |
| `McpClaims.OperationStepIs` | src/auraclaw/action/mcp_registry.py:222-302 | A granted operation is stored as running, completed by its holder while its claim runs, and marked as an unknown side effect exactly when its command is repeated after the claim ran out. |
| `McpClaims.ClaimAnswerIs` | src/auraclaw/action/mcp_registry.py:231-263 | A command is granted exactly the first time; repeated with other content it is refused, and otherwise shown its operation. |
| `McpClaims.RepeatedCommand` | src/auraclaw/action/mcp_registry.py:231-263 | Over any run a granted command that is repeated is refused for other content and shown its own operation for the same. |
| `ConnectionManager.Manager.Plan` | src/auraclaw/action/mcp_connection_manager.py:443-459 | The two loops plan exactly what each server needs, at most one operation per server. |
| `ConnectionManager.Manager.ApplyEntry` | src/auraclaw/action/mcp_connection_manager.py:257-326 | An apply is fenced by the active snapshot before and after, and leaves a pending revoke when superseded. |
| `ConnectionManager.Manager.RevokeServer` | src/auraclaw/action/mcp_connection_manager.py:391-431 | A revoke of an active server does nothing; otherwise its pending entry survives every failure until the end. |
| `ConnectionManager.RanOnItsOwn` | src/auraclaw/action/mcp_connection_manager.py:461-491 | In any order each server ends up as if only its own operation had run. |
| `ConnectionManager.ConvergesInOnePass` | src/auraclaw/action/mcp_connection_manager.py:440-492 | If the snapshot stays and every operation succeeds, the loaded revisions are exactly the snapshot, nothing is pending, and the next pass plans nothing; from a backed state exactly the servers of the snapshot are connected and none is closing. |
| `ConnectionManager.StepsKeepBacked` | src/auraclaw/action/mcp_connection_manager.py:257-431 | Whatever applies and revokes run, under whatever snapshots and failures, a loaded revision stays connected or pending and a closing connector pending. |
| `ConnectionManager.QuietPassRecovers` | src/auraclaw/action/mcp_connection_manager.py:440-492 | From any history of applies and revokes while the snapshot moved, one pass during which it stays and nothing fails leaves exactly the snapshot loaded and connected. |
| `ConnectionManager.OvertakenIsPlanned` | src/auraclaw/action/mcp_connection_manager.py:283-299 | An apply that the snapshot overtook is planned again under every later snapshot. |
| `ConnectionManager.OnlyFailuresRemain` | src/auraclaw/action/mcp_connection_manager.py:440-492 | Whatever fails, the next pass plans only servers whose operation failed. |
| `ConnectionManager.RetriedIff` | src/auraclaw/action/mcp_connection_manager.py:306-326 | A failed revoke is planned again; a failed apply exactly when it failed before the connector was replaced or a revoke was pending. |
| `ConnectionManager.LateFailureForgotten` | src/auraclaw/action/mcp_connection_manager.py:306-326 | A server whose only apply fails after the connector was replaced is not planned again. |
| `ConnectionManager.OnlyItsOwn` | src/auraclaw/action/mcp_connection_manager.py:257-431 | An operation leaves every other server alone. |
| `ConnectionManager.ApplyLeaves` | src/auraclaw/action/mcp_connection_manager.py:257-326 | What an apply leaves of its server, for every progress it makes: untouched, loaded and connected, and what is pending and closing. |
| `ConnectionManager.RevokeLeaves` | src/auraclaw/action/mcp_connection_manager.py:391-431 | The same of a revoke: it disconnects at once and forgets the server only when it is through. |
| `ResourceRegistry.OverlapIff` | src/auraclaw/action/mcp_primitives.py:196-201 | Scopes overlap exactly when some tenant sees both. |
| `ResourceRegistry.HandsResourceRegistry.RegisterResource` | src/auraclaw/action/mcp_primitives.py:50-62 | Registration checks URI, contents and overlap with every resource of the URI before it appends. |
| `ResourceRegistry.HandsResourceRegistry.UnregisterResource` | src/auraclaw/action/mcp_primitives.py:64-86 | The loop leaves each resource its other tenants, and drops what has none left. |
| `ResourceRegistry.HandsResourceRegistry.ReplaceTenant` | src/auraclaw/action/skill_packages.py:317-351 | Withdrawals, then registrations up to the first error. |
| `ResourceRegistry.RemainingDisjoint` | src/auraclaw/action/mcp_primitives.py:71-81 | Unregistering keeps scopes disjoint. |
| `ResourceRegistry.OneVisibleResource` | src/auraclaw/action/mcp_primitives.py:131-142 | In every reachable registry a tenant sees at most one resource of a URI. |
| `ResourceRegistry.OthersUnaffected` | src/auraclaw/action/mcp_primitives.py:64-86 | Unregistering for one tenant changes nothing another tenant sees. |
| `ResourceRegistry.OnlyGlobalsRemain` | src/auraclaw/action/mcp_primitives.py:72-81 | The tenant itself is left with global resources only. |
| `ResourceRegistry.GlobalsWereGlobal` | src/auraclaw/action/mcp_primitives.py:77-81 | No scoped resource becomes global. |
| `ResourceRegistry.ReplaceSpares` | src/auraclaw/action/skill_packages.py:317-351 | Replacing one tenant's packages leaves every other tenant's view of every URI as it was, even when it stops half way. |
| `ResourceViews.NothingIff` | src/auraclaw/action/mcp_primitives.py:131-142 | A tenant reads nothing under a URI exactly when no registration there includes it. |
| `ResourceViews.RegisterIff` | src/auraclaw/action/mcp_primitives.py:50-62 | A registration is accepted if and only if the resource has a URI, all its contents have it, and no tenant would read two resources there. |
| `ResourceViews.RegisterShows` | src/auraclaw/action/mcp_primitives.py:50-62 | Afterwards exactly the tenants it reaches read the new resource. |
| `ResourceViews.UnregisterShows` | src/auraclaw/action/mcp_primitives.py:64-86 | After its withdrawal a tenant reads only what is global there; without a tenant nobody reads anything; other URIs and tenants are untouched. |
| `ResourceViews.GlobalStays` | src/auraclaw/action/mcp_primitives.py:64-86 | A global resource stays readable through every withdrawal for one tenant. |
| `ResourceViews.ChangedIff` | src/auraclaw/action/mcp_primitives.py:64-86 | In every reachable registry unregistering answers true exactly when it changes something. |
| `ResourceViews.ReplaceShows` | src/auraclaw/action/skill_packages.py:317-351 | After a replacement that goes through the tenant reads exactly the resources it was given. |

## Left out

- Task cancellation: a cancelled waiter, load or heartbeat is not a step of any machine.
- The persistent invocation store path of the tool gateway and the PostgreSQL stores: only their protocols are visible.
- The time a connector takes to read a resource: its data is taken at one instant while the load is in flight.
- Policy, approval and schema validation inside a tool call: any of them may refuse, which is one step of the model.
- `bounded_map`, which is the partitioned map without partitions, and the cancellation of the other workers after a callback raised.
- Parsing of version constraints (`version_satisfies`): a parameter of the availability and resolver models, so constraint errors are not modelled.
- Non-ASCII digits, which the version pattern would accept in the three numbers, and numeric forms of `int()` that the pattern excludes.
- JSON equality between booleans and numbers in a contract's publisher field.
- Reloading a tenant during resolution, and the compiled workflow of a binding: the registry is frozen while one resolution runs.
- Installations without a pinned digest, publication and installation identifiers, and audit fields: no code path of the service creates the first, and the others are determined by their keys.
- Registry and artifact side effects of publishing, publisher trust and content scanning: they do not change the lifecycle store.
- The allowed installation transitions: the model lets management set any status, which only adds runs.
- Admission records removed together with a package, and the encoding of cursors: a page's next cursor is the key it encodes.
- Tenant checks of catalog publications, sync health counters, and the embedding vectors of an index entry.
- Catalog reads of a reconcile or hydrate pass: that a pass may also stop because the committed snapshot moved is covered by blocking at any time.
- Connectors other than MCP, whose identifiers are not derived from a server, and the admission switch of a connector.
- Drain tasks of replaced connectors and runtime records of the connection manager.
- Metrics, logging, HTTP layers, settings, release scripts, outbox relays and publisher key rotation: plumbing that would only add easy members.
- SkillAvailability.AvailableIffInLeastFixedPoint: needs unique candidate ids and, for a catalogued root id, the root's own contract; the catalog stores capabilities by id.
- Retiring a publication: no operation of the service writes that status; the model lets a transition set it, which only adds runs.
- AdmissionPages.FinishedWalkIsComplete: needs a positive limit, see ZeroLimitReturnsNothing, and unique keys within each log.
- CapabilityCatalog.GenerationCountsCommits: holds between removals of the server, which forget its generation.
- BoundedMap.EveryItemOnce: speaks of runs in which no callback raised; a raised callback ends the whole map with that error.
