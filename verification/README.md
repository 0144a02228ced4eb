# A verified model of the Azure provider of the cluster autoscaler

The project models the part of the Azure cloud provider that changes and tracks the size
of node groups, and proves what it keeps over whole runs.

- **The capacity protocol of a VM scale set** (`CapacityProtocol`, `CapacityRuns`,
  `CapacityTheorems`, `CapacityBounds`, `IncreaseOutcome`, `DeleteSizes`, `CapacityLimits`,
  `ScaleSet`).
  `CapacityProtocol` is a state machine: a server with a history of versions, VMSS objects on
  the autoscaler's heap, one of them in the cache, one increase at a time in phases (eager
  write, first PUT with If-Match, 412, fresh GET, retried PUT, publication or roll back),
  background completions, list refreshes, size queries, deletes and foreign writes, all of
  which may fall between any two steps. `ScaleSet` is the code itself in imperative form:
  shared objects updated in place, with list refreshes, size queries, deletes, completions and
  foreign writes falling between its steps; every method is proved to be a run of the state
  machine, so the theorems about runs hold of it.
- **The instance cache** (`InstanceCache`): refresh timer, throttling, statuses kept.
- **The cluster-wide index and reconciliation** (`AzureCache`, `Manager`, `CaseFold`).
- **Delete marks across both caches** (`DeleteMarks`, `Deletes`): a second state machine in
  which a regeneration collects its answers and stores them in two separate steps.
- **Smaller algorithms** (`Template`, `AgentPool`, `Lists`), and inputs on which some of the
  above falls short (`Witnesses`).

Conditional requests follow sections 13.1.1 (If-Match), 15.5.13 (412) and 8.8.3 (ETag) of
RFC 9110, Retry-After its section 10.2.3.

## Assumptions

- The server gives every accepted write a new ETag that it never uses again, and List and GET
  carry one; the model writes the ETag of the n-th version as `n`. Reads may be late: they may
  return any version issued so far. A 412 may also come without cause.
- A PUT response carries the ETag of the version that PUT made, or none. An accepted PUT comes
  with a poller.
- Increases of one scale set do not overlap each other. Everything else may interleave;
  steps are atomic at mutex boundaries.
- Time is an integer number of nanoseconds that never decreases; where the zero time matters
  the clock is more than the longest duration past it.
- Ids are ASCII and hold no line break. Discovered scale sets have distinct names. A resource
  group has no two deployments of one name, and names and timestamps are set; the configured
  number of deployments to keep is not negative. `dependsOn` entries are strings.
- The dot in the expression for virtual machine ids is not escaped in the code, so it stands
  for any character; the model follows the code.
- Requests, replies, polling results, clock readings, jitter and what other goroutines do
  meanwhile are parameters of the methods.

## What does not hold

Each of these is shown by an input (the first lemma named), and the exact condition is proved
(the second).

- A first capacity PUT can shrink the scale set, when the size in memory is older than the
  cached object: it shrinks it if and only if the capacity seen in that object is above the
  target (`FirstPutCanShrink`, `PutsAndServerCapacity`).
- A size query during the eager write can keep a rejected target as the size. Absent other
  publications an increase that fails ends with the size it had if and only if no query of a
  scale set that is not Spot, made after the size had expired, read the taken object, still
  cached, between the eager write and its roll back (`RejectedTargetCanLeak`,
  `RejectedTargetLeaksIff`).
- The comment on AtomicIncreaseSize says that all caches are invalidated on failure; they are
  if and only if the first PUT was accepted, or met a failed precondition with ETags on
  (`RefusalInvalidatesNothing`, `FailureInvalidation`).
- After a failed delete the decremented size is still served if and only if the scale set is a
  Spot one whose own period is longer than sizeRefreshPeriod
  (`FailedSpotDeleteServesDecrement`, `FailedDeleteServesDecrementIff`).
- A delete of more ids than the size in memory only marks the size stale, and the next delete
  that the size can represent makes it fresh again: the size is the one before minus all ids
  sent if and only if no delete overdrew it (`OverdrawnDeleteIsForgotten`, `AcceptedDeletes`).
- A flexible scale set loses a delete mark at any list that shows the VM other than Deleting, a
  uniform one also when a vmssCSE failure is reported in detail (`FlexibleListLosesTheMark`
  and `FailedExtensionLosesTheMark`, `KeepsIff`); and a regeneration that asked the group
  before the mark overwrites the mark in the index (`LateStoreLosesTheMark`,
  `StoredAfterMarkIff`).
- The negative cache gives wrong answers after a failed, or during a half-done, regeneration
  (`WrongAfterFailedRegeneration`, `FetchTransparentIff`).
- Group ids that differ only in letter case can lose groups: discovery leaves what it should if
  and only if no discovered group is in the way of another discovered one, of a registered
  explicit one, or of a registered one with the same bounds (`CaseClashBreaksDiscovery`,
  `DiscoveryExactIff`).
- convertResourceGroupNameToLower lowers the first occurrence of the group's text, which is
  the resource group if and only if the group is lower case already or its text does not
  occur earlier (`SubscriptionIsLowered`, `NormalizeCanonicalIff`).
- An availability set gets too many VMs if and only if its highest index is 0 and it has more
  than one VM (`TemplateMakesTooMany`, `TemplateRange`), which distinct indexes rule out
  (`FreshIndexes`).

## Model

| member | source | states |
|---|---|---|
| CapacityTheorems.Coherence | pkg/cloudprovider/azure/azure_scale_set.go:554-738 | in every reachable state outside the eager-write window, a cached object with the current ETag shows the server's capacity, and its capacity is always one read from or written to the server |
| CapacityTheorems.NoLostUpdate | pkg/cloudprovider/azure/azure_scale_set.go:559-635 | every accepted PUT replaced a version the autoscaler had read or written and made the capacity it asked for; no object has two accepted uncompleted PUTs |
| CapacityTheorems.PutsAndServerCapacity | pkg/cloudprovider/azure/azure_scale_set.go:554-635 | an accepted retried PUT strictly raises the capacity; an accepted first PUT shrinks it exactly when the capacity seen before was above the target |
| CapacityTheorems.CompletionUnblocks | pkg/cloudprovider/azure/azure_scale_set.go:701-738 | an object with an uncompleted PUT has no PUT accepted; its completion allows one exactly when the response had the ETag and nobody wrote since, and without the ETag all caches go stale |
| CapacityTheorems.CompletionTouches | pkg/cloudprovider/azure/azure_scale_set.go:701-738 | for any configuration: exactly which timers a completion makes stale and which object's tag it sets, and nothing else |
| CapacityTheorems.DeleteEndTouches | pkg/cloudprovider/azure/azure_scale_set.go:836-883 | for each end of a delete exactly which timers become stale, and nothing else |
| CapacityBounds.SizeBounds | pkg/cloudprovider/azure/azure_scale_set.go:324-354 | with ETags on or off, every PUT ever sent asks for at most maxSize and more than the size it started from; the size is never below -1 |
| CapacityBounds.KnownSizeStaysKnown | pkg/cloudprovider/azure/azure_scale_set.go:208-354 | with ETags on or off, a known size never becomes negative again, over any run |
| CapacityBounds.CachedIsReported | pkg/cloudprovider/azure/azure_scale_set.go:646-666 | with ETags on or off, outside the eager-write window the cached object shows a capacity read from or written to the server, never a rejected target |
| CapacityBounds.TakeStarts | pkg/cloudprovider/azure/azure_scale_set.go:292-297 | every increase of a reachable state starts from where the outcome lemmas start |
| CapacityRuns.StepKeepsInv | pkg/cloudprovider/azure/azure_scale_set.go:208-883 | each step of the protocol, the client's or the environment's, keeps the invariant behind these theorems |
| IncreaseOutcome.FailureAtomicity | pkg/cloudprovider/azure/azure_scale_set.go:646-666 | whatever refreshes, queries, deletes, completions and writes fall in between, a failed increase leaves the taken object at its earlier capacity, a cached object that is this one or shows a reported capacity, and the size unless something else published one |
| IncreaseOutcome.Publication | pkg/cloudprovider/azure/azure_scale_set.go:668-698 | a successful increase publishes the capacity of the object now cached, at least the target, whatever was queried, deleted, written or completed before, if no list or GET replaced the cached object |
| IncreaseOutcome.RejectedTargetLeaksIff | pkg/cloudprovider/azure/azure_scale_set.go:646-666 | absent other publications a failed increase ends with the size it had if and only if no query read the taken object, still cached, while the eager write stood; else with the rejected target |
| IncreaseOutcome.FailureInvalidation | pkg/cloudprovider/azure/azure_scale_set.go:355-405 | an increase that fails after canIncreaseSize, with no timer touched from elsewhere, invalidates all three caches if and only if its first PUT was accepted or met a failed precondition with ETags on, else no timer changes; what is invalidated is not served, but for a Spot size with a longer period |
| IncreaseOutcome.QueryInvalidation | pkg/cloudprovider/azure/azure_scale_set.go:208-273 | a size query, and so an increase turned down, invalidates nothing but the instance cache when it finds another size |
| CapacityLimits.FirstPutCanShrink | pkg/cloudprovider/azure/azure_scale_set.go:554-588 | a run in which an increase by one takes the capacity from 10 to 4 |
| CapacityLimits.EtagsOffLoseUpdates | pkg/cloudprovider/azure/azure_scale_set.go:554-588 | without ETags an accepted PUT overwrites a version never seen |
| CapacityLimits.RejectedTargetCanLeak | pkg/cloudprovider/azure/azure_scale_set.go:646-666 | a run after which the size is a target that no version ever had |
| CapacityLimits.RefusalInvalidatesNothing | pkg/cloudprovider/azure/azure_scale_set.go:368-390 | an atomic increase fails with every cache still fresh |
| CapacityLimits.FailedSpotDeleteServesDecrement | pkg/cloudprovider/azure/azure_scale_set.go:836-883 | a Spot scale set serves the decremented size after its delete failed |
| CapacityLimits.OverdrawnDeleteIsForgotten | pkg/cloudprovider/azure/azure_scale_set.go:803-821 | with 3 VMs in memory 7 ids are sent and the size 1 is served |
| DeleteSizes.AcceptedDeletes | pkg/cloudprovider/azure/azure_scale_set.go:803-821 | over any run in which only deletes publish, the size is the one before minus all ids sent for registered nodes if and only if no delete overdrew it, and if the last to count did, the next query takes a VMSS capacity |
| DeleteSizes.FailedDeleteForgetsDecrement | pkg/cloudprovider/azure/azure_scale_set.go:836-883 | after a failed delete and any run without another publication, the next size comes from a VMSS capacity |
| DeleteSizes.FailedDeleteServesDecrementIff | pkg/cloudprovider/azure/azure_scale_set.go:876-883 | the decremented size is still served exactly for a Spot set whose period is longer than sizeRefreshPeriod |
| ScaleSets.Azure.BeginCreateOrUpdate | pkg/cloudprovider/azure/azure_scale_set.go:554-588 | the server accepts exactly a matching or unconditional PUT, and then has one more version of that capacity |
| ScaleSets.ScaleSet.GetCurSize | pkg/cloudprovider/azure/azure_scale_set.go:208-273 | is a size query of the protocol; which size it finds, the tag then in the cache, the refresh time and the invalidation, from the fields before it |
| ScaleSets.ScaleSet.CanIncreaseSize | pkg/cloudprovider/azure/azure_scale_set.go:324-344 | lets an increase start exactly with a positive delta, a size found and room below the maximum |
| ScaleSets.ScaleSet.Interfere | pkg/cloudprovider/azure/azure_scale_set.go:701-883 | what happens elsewhere, refreshes, queries, deletes, completions and writes, is a run that leaves the increase where it is |
| ScaleSets.ScaleSet.InitCreateOrUpdate | pkg/cloudprovider/azure/azure_scale_set.go:554-588 | amid any such events is a run of first PUT, and on a 412 of the retry; left to itself it fails, sends and tracks exactly what the server's history, the tag and the faults say |
| ScaleSets.ScaleSet.RetryCreateOrUpdateWithFreshETag | pkg/cloudprovider/azure/azure_scale_set.go:596-635 | left to itself it goes through if and only if the GET works and shows a capacity that meets the target, or the current version to a PUT without fault; no PUT exactly when the target is met |
| ScaleSets.ScaleSet.CreateOrUpdateInstances | pkg/cloudprovider/azure/azure_scale_set.go:646-698 | amid any such events fails with the object restored, the size kept unless an event published one and the cached object showing a reported capacity, or succeeds with the cached capacity published and at least the target unless an event replaced the cached object; left to itself comes to what its forecast says |
| ScaleSets.ScaleSet.AtomicPut | pkg/cloudprovider/azure/azure_scale_set.go:375-432 | the same promises for the body of the atomic increase, over the blocking poll |
| ScaleSets.ScaleSet.PollAndPublish | pkg/cloudprovider/azure/azure_scale_set.go:391-432 | what a failed and a successful poll leave in size, timers and object |
| ScaleSets.ScaleSet.SetSize | pkg/cloudprovider/azure/azure_scale_set.go:292-313 | takes the cached object, or fails for want of it, and makes a plain increase on it |
| ScaleSets.ScaleSet.IncreaseSize | pkg/cloudprovider/azure/azure_scale_set.go:347-354 | is a protocol run with these promises; left to itself, from the history, the tag and the faults alone: it succeeds if and only if a PUT is accepted or the target already met, appends exactly that PUT, publishes that size and starts that completion |
| ScaleSets.ScaleSet.AtomicIncreaseSize | pkg/cloudprovider/azure/azure_scale_set.go:368-432 | the same for the atomic increase, which must also see its PUT complete and takes over the tag of the response |
| ScaleSets.ScaleSet.WaitForCreateOrUpdateInstances | pkg/cloudprovider/azure/azure_scale_set.go:701-738 | is the completion step: which timers become stale, which object takes over which tag |
| ScaleSets.ScaleSet.NoteDelete | pkg/cloudprovider/azure/azure_scale_set.go:803-821 | is the delete step of the protocol: size and refresh time in each case |
| ScaleSets.ScaleSet.WaitForDeleteInstances | pkg/cloudprovider/azure/azure_scale_set.go:836-883 | is the end of a delete, with one retry exactly on preemption, and which of the three timers become stale |
| InstanceCaches.BuildIsExact | pkg/cloudprovider/azure/azure_scale_set.go:1051-1116 | the cache built from a list holds exactly the instances of the listed VMs with a valid id |
| InstanceCaches.BuiltStatusIff | pkg/cloudprovider/azure/azure_scale_set_instance_cache.go:202-276 | spelled out for both modes: which listed VMs get which status, and which status code counts as the power state |
| InstanceCaches.BuiltAreRight | pkg/cloudprovider/azure/azure_scale_set.go:1051-1160 | the instances built are those of the listed VMs with these statuses |
| InstanceCaches.BuildAppend | pkg/cloudprovider/azure/azure_scale_set.go:1051-1071 | they stand in the order of the list |
| InstanceCaches.ThrottlingIsRespected | pkg/cloudprovider/azure/azure_scale_set.go:992-1046 | after a throttled list, for any jitter, no timer-driven read calls the API or fails before Retry-After, and the instances stay |
| InstanceCaches.InvalidationIsRespected | pkg/cloudprovider/azure/azure_scale_set_instance_cache.go:74-98 | after an invalidation each read fails or lists until a list came in |
| InstanceCaches.InstanceCache.Update | pkg/cloudprovider/azure/azure_scale_set_instance_cache.go:102-119 | which modes list, which answers fail, the instances and the exact refresh time after each answer |
| InstanceCaches.InstanceCache.BuildInstances | pkg/cloudprovider/azure/azure_scale_set.go:1051-1096 | builds exactly the instances of the listed VMs, each with the status its fields and the instances so far require |
| InstanceCaches.InstanceCache.GetInstanceByProviderID | pkg/cloudprovider/azure/azure_scale_set_instance_cache.go:122-139 | the first instance with the id after validation, an error exactly when validation fails |
| InstanceCaches.InstanceCache.SetInstanceStatusByProviderID | pkg/cloudprovider/azure/azure_scale_set_instance_cache.go:179-198 | sets the status of the first instance with the id, even when validation failed |
| InstanceCaches.InstanceCache.Nodes | pkg/cloudprovider/azure/azure_scale_set.go:962-989 | serves the cache only when fresh and of the current size, else lists; no nodes and no error for a missing scale set |
| DeleteMarks.KeepsIff | pkg/cloudprovider/azure/azure_scale_set_instance_cache.go:202-276 | exactly which listed VMs leave a Deleting mark in place |
| DeleteMarks.MarkSurvives | pkg/cloudprovider/azure/azure_scale_set.go:753-828 | over every run whose lists still show the VM, a marked id stays Deleting in both caches, HasInstance answers gone in any case and order, and no delete chooses it again |
| DeleteMarks.DeletedIdStaysGone | pkg/cloudprovider/azure/azure_scale_set.go:823-828 | the same from the two marks of an accepted delete on, with other steps between the marks |
| DeleteMarks.StoredAfterMarkIff | pkg/cloudprovider/azure/azure_cache.go:193-241 | a regeneration storing after other steps reports the instance gone exactly when it was Deleting when its group was asked |
| Deletes.Deleter.DeleteInstances | pkg/cloudprovider/azure/azure_scale_set.go:741-834 | is a run of lookups and marks; with a fresh cache picks, in order, exactly the ids whose first instance is not deleting; sends these, counts each once, marks all and only after acceptance, and goes through when one group owns the ids |
| Deletes.PickedStaysGone | pkg/cloudprovider/azure/azure_scale_set.go:823-828 | each id DeleteInstances sent and marked stays gone and is not sent again, over the other marks and any run that still shows the VM |
| Deletes.MarksSplit | pkg/cloudprovider/azure/azure_scale_set.go:823-828 | the trace of its marks, taken apart at any id |
| Deletes.Deleter.SelectFrom | pkg/cloudprovider/azure/azure_scale_set.go:753-767 | chooses, in order, the ids not known to be deleting, or stops at an id of another group |
| Deletes.ServedLooks | pkg/cloudprovider/azure/azure_scale_set.go:760-766 | looks served by a fresh cache choose exactly the ids not known to be deleting |
| Deletes.WantedIff | pkg/cloudprovider/azure/azure_scale_set.go:760-763 | not known to be deleting: the first instance of the id, if any, has no status or another state |
| Deletes.UndeletedIs | pkg/cloudprovider/azure/azure_scale_set.go:753-767 | the ids chosen are that filter of the ids given, in order |
| Deletes.SegmentIs | pkg/cloudprovider/azure/azure_util.go:529-537 | the name sent is what follows the last slash, without the space around the id |
| Deletes.LastPart | pkg/cloudprovider/azure/azure_util.go:529-537 | what follows the last slash |
| CaseFold.NormalizeFolds | pkg/cloudprovider/azure/azure_util.go:588-596 | normalisation changes only letter case |
| CaseFold.EqualFoldIff | pkg/cloudprovider/azure/azure_cache.go:566-574 | two ids are equal up to case exactly when each letter is the same or the capital of the other |
| CaseFold.SpanIff | pkg/cloudprovider/azure/azure_util.go:588-596 | what the expression captures, by positions |
| CaseFold.NormalizeCanonicalIff | pkg/cloudprovider/azure/azure_util.go:588-596 | exactly when the resource group is what gets lowered |
| CaseFold.AzureFormatIff | pkg/cloudprovider/azure/azure_util.go:588-596 | an id is accepted exactly when it has a subscription, a non-empty resource group and a provider part, in this order |
| AzureCaches.IndexIsExact | pkg/cloudprovider/azure/azure_cache.go:199-217 | the new index holds exactly the listed ids, each owned by a group that lists it; states only for these |
| AzureCaches.RegenerateAllOrNothing | pkg/cloudprovider/azure/azure_cache.go:193-241 | when it succeeds; on error index, states, options and negative cache are unchanged; on success the index is what the registered groups list and the options are those of the listed scale sets; the lists that came in are kept either way |
| AzureCaches.LookupIgnoresCaseAndOrder | pkg/cloudprovider/azure/azure_cache.go:471-499 | with case-distinct keys all ids equal up to case get one answer, in any iteration order |
| AzureCaches.MarkIsLocal | pkg/cloudprovider/azure/azure_cache.go:578-594 | marking an id changes the answer for exactly its case class |
| AzureCaches.CacheRunKeepsInv | pkg/cloudprovider/azure/azure_cache.go:384-430 | over any run, failed and half-done regenerations included, registered ids stay distinct up to case and states within the index |
| AzureCaches.RegenerateIsTwoSteps | pkg/cloudprovider/azure/azure_cache.go:193-241 | a regeneration is the publication of the lists and the storing of the index, or the first alone if it fails |
| AzureCaches.NegativeCacheIsTransparent | pkg/cloudprovider/azure/azure_cache.go:502-550 | in every reachable state FindForInstance may answer exactly what it may without the negative cache, unless harmful lists came in and no index was stored since |
| AzureCaches.TransparentIff | pkg/cloudprovider/azure/azure_cache.go:502-550 | exactly when the negative cache changes no answer for an id |
| AzureCaches.FindAnswers | pkg/cloudprovider/azure/azure_cache.go:502-550 | from an empty negative cache: which ids fail, which are unowned by their kind and remembered, and what the others get |
| AzureCaches.NamesVmIff | pkg/cloudprovider/azure/azure_cache.go:39-39 | which ids name a virtual machine |
| AzureCaches.RegisterEffect | pkg/cloudprovider/azure/azure_cache.go:384-411 | exactly when registering changes something, and what |
| AzureCaches.FetchTransparentIff | pkg/cloudprovider/azure/azure_cache.go:263-290 | after lists without an index the negative cache changes no answer for an id if and only if the id is not in it or not indexed, it plays no part, or the lists are all uniform without VMs pools |
| AzureCaches.AzureCache.Register | pkg/cloudprovider/azure/azure_cache.go:384-406 | replaces or appends a group, reports whether anything changed, and then forgets unowned ids |
| AzureCaches.AzureCache.Unregister | pkg/cloudprovider/azure/azure_cache.go:414-430 | removes the groups equal up to case and reports whether there were any |
| AzureCaches.AzureCache.HasInstance | pkg/cloudprovider/azure/azure_cache.go:471-499 | which answer stands for which key and state of the index, whatever the iteration order |
| AzureCaches.AzureCache.FindForInstance | pkg/cloudprovider/azure/azure_cache.go:502-550 | fails exactly for ids not in Azure format; from an empty negative cache, leaves out and remembers exactly the ids unowned by their kind and finds the owner of any other in the index |
| AzureCaches.AzureCache.SetInstanceStateByProviderID | pkg/cloudprovider/azure/azure_cache.go:578-594 | sets the state of one key equal up to case, or nothing |
| AzureCaches.AzureCache.Regenerate | pkg/cloudprovider/azure/azure_cache.go:193-241 | the nested loops build the specified index, or fail with the resource lists alone changed |
| Managers.DiscoveryIsExact | pkg/cloudprovider/azure/azure_manager.go:267-304 | discovery leaves exactly the registered explicit groups with their bounds and the discovered others |
| Managers.DiscoveryExactIff | pkg/cloudprovider/azure/azure_manager.go:267-304 | discovery leaves exactly the registered explicit groups and the discovered others if and only if no discovered group is in the way of another whose id differs only in case |
| Managers.DiscoveryIsIdempotent | pkg/cloudprovider/azure/azure_manager.go:267-304 | when no group is in the way of another, a second discovery of the same groups changes nothing and reports no change |
| Managers.NoChangeIsNoChange | pkg/cloudprovider/azure/azure_manager.go:299-301 | a discovery after which the cache is not invalidated changed nothing |
| Managers.OnlyTheLastDiscoveryCounts | pkg/cloudprovider/azure/azure_manager.go:267-304 | after any sequence of discoveries: the explicit groups as registered, and the groups of the last one |
| Managers.CaseClashBreaksDiscovery | pkg/cloudprovider/azure/azure_manager.go:267-304 | ids equal up to case: an explicit group is replaced, a rediscovered group dropped |
| Managers.AzureManager.FetchExplicitNodeGroups | pkg/cloudprovider/azure/azure_manager.go:172-189 | registers and notes the specs before the first bad one, and invalidates exactly when it changed something and none was bad |
| Managers.AzureManager.FetchAutoNodeGroups | pkg/cloudprovider/azure/azure_manager.go:267-304 | the two loops do the specified discovery and invalidate exactly when a group was registered or unregistered |
| Managers.AzureManager.ForceRefresh | pkg/cloudprovider/azure/azure_manager.go:245-256 | discovery if it works, then regeneration; the refresh time is now on success, else invalidated exactly when discovery changed something |
| Managers.AzureManager.Refresh | pkg/cloudprovider/azure/azure_manager.go:238-243 | nothing while the last refresh is recent, else a forced one; after a failure it stays due |
| Lists.FilterBackward | pkg/cloudprovider/azure/azure_util.go:310-316 | cutting elements out in a backward loop is an order-preserving filter |
| Lists.RemoveIndexes | pkg/cloudprovider/azure/azure_util.go:342-348 | removal in descending order is filtering by position |
| Templates.NormalIsClean | pkg/cloudprovider/azure/azure_util.go:273-340 | what stays depends on neither removed kind, has no empty dependency list and is no removed kind |
| Templates.NormalOne | pkg/cloudprovider/azure/azure_util.go:287-316 | exactly which resources go |
| Templates.NormalAppend | pkg/cloudprovider/azure/azure_util.go:280-323 | resource after resource, in order |
| Templates.DetachKeeps | pkg/cloudprovider/azure/azure_util.go:310-322 | a dependency that mentions neither kind stays as often as it was; the others go |
| Templates.StripTakes | pkg/cloudprovider/azure/azure_util.go:386-435 | exactly what is taken out of a master VM |
| Templates.PassesCompose | pkg/cloudprovider/azure/azure_util.go:273-409 | the two passes together are one filter-and-map of the input, in order |
| Templates.Template.NormalizeMaster | pkg/cloudprovider/azure/azure_util.go:351-409 | strips master VMs and removes exactly the master VM extensions |
| Templates.Template.NormalizeForScalingUp | pkg/cloudprovider/azure/azure_util.go:273-340 | succeeds exactly with one network security group and at most one route table, and then leaves the normal template; else only masters and a prefix of the dependency lists changed |
| AgentPools.GetVMIndexes | pkg/cloudprovider/azure/azure_agent_pool.go:149-184 | the indexes of the VMs with a disk, sorted, and the id of the last VM for each; an error exactly when one cannot be read |
| AgentPools.IndexesAre | pkg/cloudprovider/azure/azure_agent_pool.go:158-179 | found if and only if every VM with a disk can be read; then the indexes of these VMs, one for each |
| AgentPools.LastIdIsKept | pkg/cloudprovider/azure/azure_agent_pool.go:174-178 | the id kept for an index is that of the last VM which has it |
| AgentPools.TemplateRange | pkg/cloudprovider/azure/azure_agent_pool.go:319-331 | the range meets no index in use, and has exactly delta entries if and only if the highest index is not 0 or there is one VM |
| AgentPools.FreshIndexes | pkg/cloudprovider/azure/azure_agent_pool.go:314-331 | with distinct non-negative indexes there are always exactly delta new, unused ones |
| AgentPools.PoolStaysTidy | pkg/cloudprovider/azure/azure_agent_pool.go:314-331 | over any sequence of growths and losses no two VMs have one index at a time, the maximum holds, and the number of VMs is what was asked for |
| AgentPools.AgentPool.IncreaseSize | pkg/cloudprovider/azure/azure_agent_pool.go:294-357 | when each outcome comes, the parameters sent, the new size on success, and an unchanged size otherwise |
| AgentPools.ResourceGroup.DeleteOutdatedDeployments | pkg/cloudprovider/azure/azure_agent_pool.go:249-291 | tries all but the newest finished deployments of the autoscaler even if some fail, none newer than a kept one, and deletes nothing else |
| AgentPools.AtMostMaxRemain | pkg/cloudprovider/azure/azure_agent_pool.go:262-276 | when no delete fails at most the configured number remain |
| Witnesses.FlexibleListLosesTheMark | pkg/cloudprovider/azure/azure_scale_set.go:1121-1160 | a flexible list showing Updating makes a marked VM Running |
| Witnesses.FailedExtensionLosesTheMark | pkg/cloudprovider/azure/azure_scale_set_instance_cache.go:261-273 | a uniform list showing Deleting with a failed extension makes it Creating |
| Witnesses.LateStoreLosesTheMark | pkg/cloudprovider/azure/azure_cache.go:193-241 | asked before the mark, stored after it: the VM is reported present |
| Witnesses.WrongAfterFailedRegeneration | pkg/cloudprovider/azure/azure_cache.go:263-290 | an indexed VM is answered as unowned after a failed regeneration |
| Witnesses.SubscriptionIsLowered | pkg/cloudprovider/azure/azure_util.go:588-596 | with both named A the subscription is lowered, not the group |
| Witnesses.TemplateMakesTooMany | pkg/cloudprovider/azure/azure_agent_pool.go:324-331 | two VMs of index 0: one more asked for, two made |

## Left out

- DeleteMarks.MarkSurvives: speaks of one ScaleSet object; a group registered again with other bounds starts with an empty instance cache, and a scale set missing from the cache lists no nodes, both of which end the run (registering it again with the same bounds is part of it).
- InstanceCaches.InstanceCache.Nodes: the size query before it is a parameter; it is ScaleSets.ScaleSet.GetCurSize.
- ScaleSets.ScaleSet.WaitForDeleteInstances: the lists made by a forced refresh are steps of their own; `lastInstanceRefresh` there is the same field as `lastRefresh` of InstanceCaches.InstanceCache.
- Templates.Template.NormalizeForScalingUp: each loop works on the resource list as a value and stores it when it ends; sharing of JSON maps between resources is not modelled.
- AgentPools.ResourceGroup.DeleteOutdatedDeployments: unset names (a crash in the code) and unset timestamps (no defined order) are not modelled.
- AgentPools.AgentPool.IncreaseSize: its calls to invalidate the manager's cache are not modelled; an empty pool, on which the code indexes an empty slice, is the outcome Crashed.
- The force-delete fallback of deletes: accepted or refused is a parameter.
- SDK clients, credentials, configuration, wiring, charts and scripts: foreign calls and I/O.
- Instance types, node templates, labels and GPU tables: data and simple lookups.
- Tag matching of autodiscovery: the matched scale sets and their bounds are an input.
- VMs pools beyond their part in lookups: counts over a filtered list.
- VM names, blob URIs and Retry-After text: the parsed value is an input.
- Deletion of single VMs, NICs and disks: sequencing of API calls.
- getInstancesByState, getInstanceCacheSize, DecreaseTargetSize and the agent pool's size cache: they would only add easy members.
- Data races below mutex granularity.
