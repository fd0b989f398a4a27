# Load balancer controller for CloudStack: a verified model

A Kubernetes cloud provider keeps one CloudStack load balancer rule per `LoadBalancer` service: it
finds or acquires a public address, makes the rule, tags both, and keeps the rule's hosts and health
checks in line with the cluster. This project models that controller in three layers and proves what
it keeps over every run.

1. **Concurrent pipeline.** `ServiceLock` is the table of reference-counted mutexes, both as the
   object with its methods and as a machine of any number of threads that takes one statement at a
   time. `LockOrder` gives every call as the list of locks it takes and shows that no mix of calls
   deadlocks. `ServiceQueue` is the coalescing priority queue, its history and its workers.
   `NodeRegistry` is the revisioned node registry.
2. **Reconciler.** `Cloud` is CloudStack: one atomic request at a time, each of which may fail with or
   without taking effect. `Reconciler` is Ensure and Delete as programs of requests and responses;
   `LoadBalancer` is the object whose methods the code has, each proved to make exactly the requests
   of that program. `ReconcilerWorld` runs any number of calls interleaved; `ReconcilerOutcome`, on
   top of `ReconcilerFixpoint`, `ReconcilerDeletion` and `ReconcilerAddresses`, gives the outcome and
   the exact cloud of every error-free call, `ReconcilerProgress` says that calls end,
   `ReconcilerRetries` what failing calls leave and what the next one makes of it,
   `ReconcilerTakeover` and `ReconcilerClash` where two services get in each other's way.
   `HostSync`, `Pools` and `UpdateWorker` are what a queue worker does to a rule; `Controller` is the
   code before the first request.
3. **Algorithms.** `Paging`, `Ports`, `Tags`, `JsonPointer`, `ProviderId`, with `Kube`, `Strings`,
   `Sorting` and `Wrappers` below them.

Run `dafny verify dfyconfig.toml` in this directory.

## What does not hold

The code is modelled as it is. Where a plausible claim is false, the model has a lemma with the input
that breaks it, or the exact condition under which it holds.

- **One tagged address per service** (`ReconcilerTakeover`): an Ensure call that takes over the
  address named in its service's status tags it without looking at its tags. If these claim another
  service, that service ends up with two fully tagged addresses: `TakeoverBreaks` is such a run
  without one failed request, `TakeoverRunExactly` the exact condition for a call, and
  `NeverTwoAddresses` covers every run whose takeovers are clean for the service in question.
- **Ensure after a failed Ensure** (`ReconcilerRetries`): when tagging a new rule fails, the rule stays
  without all its tags. The next Ensure is refused and the next Delete silently leaves the rule,
  exactly when the service's status does not name the balancer yet (`FailedTaggingStrands`,
  `FailedCreationStrands`). After any number of failed runs for a new service such a rule is the only
  thing that keeps an error-free run from converging (`RetryConvergesExactly`).
- **Delete after a failed Delete** (`DeleteRetriedExactly`, `DeleteLeaks`): a call that fails between
  dropping the rule and releasing its address leaves the address for good; the next call finds no
  rule, only reads and reports success.
- **A refused Ensure changes nothing** (`EnsureOutcome`): a service that asks for another address and
  has unusable ports loses its rule, and its old address if it is the service's, before the ports are
  looked at and the call ends in an error. So does, for its rule alone, a service whose old address
  does not exist any more; Delete likewise drops the rule and then fails (`DeleteExactly`).
- **Pool updates are not lost** (`PoolRequestLostExactly`): a merge in the queue keeps the first
  push's flag, so a later request is dropped exactly when the round's first push did not ask.
- **A retry keeps the newest service** (`RetryOverwritesExactly`, `RetryLosesNewest`): an object pushed
  while a worker has the service is replaced by the worker's own when the update fails, exactly when it
  is another one than the worker took.
- **The queue's order is a fixed order** (`ClockMustStandStill`, `ClockMattersExactly`,
  `ClockContradictsExactly`): two entries can compare either way when the clock moves between two
  comparisons. It is a strict weak order at any fixed instant.
- **`matchAllTags` is inclusion** (`CountingCanBeFooled`, `CountingIsInclusionExactly`): repeated keys
  and foreign tags with empty values count as hits, and the two differ exactly when there are at least
  as many of these as missing tags.
- **`symmetricDifference` removes only unwanted hosts** (`DifferenceExactExactly`): exactly when no
  wanted host is listed twice, which the paging loop guarantees.
- **UDP parameters belong to UDP pools** (`UdpLeaks`, `UdpLeaksExactly`): the parameter object is shared,
  so an update carries them exactly when some port up to it is outdated and asks for UDP.
- **The provider ID reads back** (`RoundTripExactly`): except for the environment
  `custom-cloudstack:` with an empty project, whose printed ID starts with the scheme.
- **Default balancer names are unique** (`DefaultNamesClashExactly`): they leave out the namespace, and
  `SharedNameBreaks` is a run in which two services with one name end with two rules.
- **A failed `updateNodes` changes nothing** (`FailureCanChangeNodes`, `FailureLeavesNodesExactly`): it
  keeps what it did up to the node it rejects, and leaves the nodes as they were exactly when the
  visited ones enter nothing and relabel nothing.

The order of the sources in `getLoadBalancerIP` differs from its comment
(`cloudstack/loadbalancer.go:613-620` against `623-647`): the requested address is tried before the
one in the status, and it is the other two sources that are tagged. The model follows the code.

## Model

| member | source | states |
|---|---|---|
| ServiceLock.LeaveUndoesEnter | cloudstack/servicelock.go:24-42 | On the table, whatever other threads do to any entry while a thread waits for its mutex and while it holds it, Lock and Unlock together leave the table as if the thread had never been there |
| ServiceLock.ServiceLock.GetLocker | cloudstack/servicelock.go:44-52 | Returns the key's entry, creating a fresh unlocked one with counter 0 only when there is none; no other entry changes |
| ServiceLock.ServiceLock.Register | cloudstack/servicelock.go:24-29 | Under the table mutex, Lock counts the thread in the key's one entry and changes nothing else |
| ServiceLock.ServiceLock.Unlock | cloudstack/servicelock.go:32-42 | Frees the mutex found in the table, takes the thread off the count and drops the entry exactly when the count reaches 0 |
| ServiceLock.StepInv | cloudstack/servicelock.go:24-52 | Every statement of every thread keeps: table mutex held by exactly the thread in its section, entries separate, references current, counters exact, no stale entry, owners exact |
| ServiceLock.LockSafety | cloudstack/servicelock.go:24-52 | In every reachable state of any number of threads: at most one owner per service, each counter is the number of threads waiting on or holding the entry, every such thread has the mutex in the table, and the table is empty when all threads are idle |
| ServiceLock.LockProgress | cloudstack/servicelock.go:24-42 | In every reachable state with a thread that is not idle, some such thread can move |
| ServiceLock.RefinesMutexes | cloudstack/servicelock.go:14-52 | Every step of the reference-counted table is a step of one plain mutex per service, or none: a refinement |
| ServiceLock.BlockedExactlyWhenHeld | cloudstack/servicelock.go:24-30 | A thread waiting for its service's mutex can take it exactly when no thread holds that service |
| ServiceLock.OthersOnlyTake | cloudstack/servicelock.go:24-42 | While one thread holds the table mutex, all that another can do to the table is to take the free mutex of an entry in which it is counted |
| ServiceLock.RegisterIsEnter | cloudstack/servicelock.go:24-29 | The statements of the threads' Lock section, with any steps of other threads in between, have on the table the effect of the object's method beside the mutexes that others take meanwhile |
| ServiceLock.UnlockIsLeave | cloudstack/servicelock.go:32-42 | The same for the three statements of Unlock, also when another thread takes the released mutex before the count is down |
| LockOrder.ProgramsOrdered | cloudstack/service_queue.go:105-172 | Each of the controller's calls and worker turns, however it ends, takes its locks in increasing rank and gives all of them back |
| LockOrder.StepInv | cloudstack/nodes.go:51-72 | Every move of every thread keeps mutual exclusion of writers and the rank discipline |
| LockOrder.Progress | cloudstack/service_queue.go:244-249 | If some thread is busy, some thread can move, with writer preference on the read-write locks |
| LockOrder.NoDeadlock | cloudstack/loadbalancer.go:178-316 | The same in every reachable state, for any number of threads running any mix of calls |
| ServiceQueue.BeforeStrictWeak | cloudstack/service_queue.go:299-309 | At any fixed instant Less is a strict weak order, as sort.Sort demands |
| ServiceQueue.BeforeIsLex | cloudstack/service_queue.go:299-309 | At a fixed instant Less means: shorter wait first, then newer node revision, then earlier start |
| ServiceQueue.ClockMattersExactly | cloudstack/service_queue.go:299-309 | Less answers differently at two readings exactly when the later of two different backoffs ends between them and the backoffs are ordered against revisions and starts |
| ServiceQueue.ClockContradictsExactly | cloudstack/service_queue.go:299-309 | Each of two entries comes before the other, once at each reading, exactly when the second has the later backoff, it ends between the readings, and the second has the newer revision or the earlier start |
| ServiceQueue.ClockMustStandStill | cloudstack/service_queue.go:299-309 | At any instant there is such a pair |
| ServiceQueue.FirstIsBest | cloudstack/service_queue.go:136-172 | The head of the sorted queue is ready exactly when some entry is, and is then among the ready ones one with the newest revision and the earliest start |
| ServiceQueue.HeadReadyLater | cloudstack/service_queue.go:159-164 | With the sort before the check, the head is ready at the check exactly when some entry is |
| ServiceQueue.UpdateQueue.Push | cloudstack/service_queue.go:105-134 | A queued service only gets the new service object and loses its balancer; a new one is inserted as given, and refused exactly when no node serves it |
| ServiceQueue.UpdateQueue.PushWithBackoff | cloudstack/service_queue.go:97-103 | Requeues with a backoff from the first clock reading, a start from the second and no balancer |
| ServiceQueue.UpdateQueue.Pop | cloudstack/service_queue.go:136-172 | Succeeds exactly when some entry is ready at the check, returns an entry that was first at the sort and is ready at the check, and removes exactly its key |
| ServiceQueue.EntryExplained | cloudstack/service_queue.go:105-134 | After any history a service is queued exactly when it was pushed since its last pop, with the last pushed object and the first push's pool flag, start and backoff |
| ServiceQueue.PoolRequestLostExactly | cloudstack/service_queue.go:111-116 | A requested pool update is lost exactly when the round's first push did not ask for one |
| ServiceQueue.InsertsMinusPops | cloudstack/service_queue.go:129-171 | After any history the queue's size is inserts minus pops |
| ServiceQueue.FailedItem | cloudstack/service_queue.go:219-238 | In every run of any number of workers, an item that was taken and whose update fails later is merged into an entry put meanwhile, which keeps its own pool flag, start and backoff; else inserted as it was taken with the new backoff and start and no balancer; else, without nodes, gone |
| ServiceQueue.QueuedWasPut | cloudstack/service_queue.go:105-134 | In every run, a service taken once is queued later exactly when it was put since, and then with the object put last |
| ServiceQueue.RetryOverwritesExactly | cloudstack/service_queue.go:111-238 | In every run, the service object put last while a worker had the service is replaced when that worker's update fails exactly when it differs from the one the worker took |
| ServiceQueue.RetryLosesNewest | cloudstack/service_queue.go:111-238 | A run of four steps after which the queue holds the older object and nobody has the newer one |
| ServiceQueue.StepKeepsPending | cloudstack/service_queue.go:204-238 | A pending service stays queued or in a worker's hands across every step, unless the step is its success or its refused requeue |
| ServiceQueue.NothingForgotten | cloudstack/service_queue.go:179-242 | Over every run of any number of workers, an accepted service is pending until an update of it succeeds or its requeue is refused |
| NodeRegistry.UpdateKeepsConsistent | cloudstack/nodes.go:188-230 | Any call, failing or not, keeps every node under its own name with a revision between 1 and the registry's; present nodes keep VM, network and revision, new ones carry the call's revision |
| NodeRegistry.UpdateSuccess | cloudstack/nodes.go:188-230 | On success the nodes are exactly the given ones already present or found in CloudStack, and there is one |
| NodeRegistry.UpdateFailure | cloudstack/nodes.go:199-229 | On failure the registry is empty, or it has every node it had and at most the given ones more |
| NodeRegistry.FailureKinds | cloudstack/nodes.go:188-229 | A failed call was given no node and changed nothing, or accepted all and keeps none, or rejected one; the revision grows in all but the first case |
| NodeRegistry.FailureLeavesNodesExactly | cloudstack/nodes.go:199-218 | A call that rejects a node leaves the nodes as they were exactly when, among those up to it, no absent one has acceptable labels and a VM and every present one ends with the entry it had |
| NodeRegistry.FailureCanChangeNodes | cloudstack/nodes.go:199-218 | A call with a node that is found and a second whose lookup fails ends in an error with the first node registered |
| NodeRegistry.VisitExplained | cloudstack/nodes.go:199-251 | After the visited nodes a present entry is what their labels make of it in order, and an absent name is there exactly when one of them enters it |
| NodeRegistry.UpdateSucceedsExactly | cloudstack/nodes.go:188-230 | A call succeeds exactly when every node has a project and, if it is not registered by its turn, a configured environment and a lookup that finds nothing or a VM with a network card, and at least one node is registered already or found |
| NodeRegistry.UpdateLabelsExactly | cloudstack/nodes.go:188-251 | After a successful call a given node that is kept has the environment, project, host name and filter value that the labels of its last occurrence in the list say |
| NodeRegistry.UpdateCardsExactly | cloudstack/nodes.go:199-289 | After a successful call a new entry has the VM of the first lookup of its name that finds one, and the network of the configured card, or of the first one when there is no such card |
| NodeRegistry.SelectionExactly | cloudstack/nodes.go:127-164 | After a successful call a given node that is kept serves a service exactly when their environments agree, it has the filter value the service asks for if that is not empty, and its project is the service's if the service has a non-empty one; all from labels and configuration |
| NodeRegistry.SelectionWithoutFilter | cloudstack/nodes.go:127-164 | The same without a filter label in the configuration: the filter value is the one the entry had before, and empty for a new one |
| NodeRegistry.RunConsistent | cloudstack/nodes.go:188-230 | In every run from the empty registry, errors included, every state is consistent and revisions never decrease |
| NodeRegistry.RunKeepsIdentity | cloudstack/nodes.go:199-218 | In every run a continuously present node keeps its VM, network and the revision of the call that inserted it |
| NodeRegistry.Registry.UpdateNodes | cloudstack/nodes.go:188-230 | The loop, with its early return, has exactly the effect of the specification `Update` |
| NodeRegistry.Registry.NodesForService | cloudstack/nodes.go:127-164 | Returns each matching node once, and an error exactly when there is none; which nodes match is NodeRegistry.SelectionExactly |
| NodeRegistry.Registry.TopRevisionOf | cloudstack/service_queue.go:142-149 | The greatest revision among the known nodes that run the service's endpoints, 0 without any |
| NodeRegistry.Registry.UpdateEndpointsNodes | cloudstack/nodes.go:70-87 | The service's node set becomes exactly the nodes named by its endpoint addresses |
| NodeRegistry.Registry.DeleteEndpointsNodes | cloudstack/nodes.go:89-95 | Exactly the service's node set goes |
| NodeRegistry.IdsForNodes | cloudstack/nodes.go:176-186 | The hosts in order, each network once and sorted, and the last node's project |
| Reconciler.GuardedDestruction | cloudstack/loadbalancer.go:227-364 | In every trace of Ensure and Delete, whatever the server answers, a rule is deleted only after a listing of the same call showed it passing shouldManageLB, and an address is released only right after it was read back with all the service's tags or right after tagging it failed |
| ReconcilerWorld.NeverTwoRules | cloudstack/loadbalancer.go:184-284 | In every interleaving of Ensure and Delete calls for services with distinct balancer names, with any request failing at any point and taking effect or not, the cloud never holds two rules with one name |
| ReconcilerWorld.StepNameInv | cloudstack/loadbalancer.go:427-476 | Inductive step: from its search by name on, a call knows that the only rule with its name is the one it has at hand |
| ReconcilerWorld.NeverTwoAddresses | cloudstack/loadbalancer.go:621-718 | In every interleaving, under arbitrary failures and failed rollbacks, at most one address carries a service's full tag set, as long as no takeover from a status can complete the service's tags by accident |
| ReconcilerWorld.SearchByTag | cloudstack/loadbalancer.go:674-718 | A tag search that finds nothing proves that no address carries the service's full tag set |
| ReconcilerWorld.NewlyFull | cloudstack/loadbalancer.go:1264-1289 | An address can only become fully tagged for a service by that service's own tagging request |
| ReconcilerTakeover.TakeoverCarriesExactly | cloudstack/loadbalancer.go:631-648 | After a takeover an address carries another service's full tags exactly when it already had those in which the two services differ |
| ReconcilerTakeover.CleanExactly | cloudstack/loadbalancer.go:631-648 | While nobody else is tagging the address, a takeover is clean for another service exactly when the address does not claim to be its own |
| ReconcilerTakeover.TakeoverRunExactly | cloudstack/loadbalancer.go:631-657 | An Ensure run from the lookup of the status' address on, with its tags confirmed and however it goes on, leaves another service at one fully tagged address exactly when the address did not claim to be the other's or the other has no other address |
| ReconcilerTakeover.TakeoverBreaks | cloudstack/loadbalancer.go:631-648 | For any two services with different names, a run without failures that leaves the other service with two fully tagged addresses |
| ReconcilerClash.SharedNameBreaks | cloudstack/loadbalancer.go:546-561 | For any two services that share a balancer name, a run without failures, side by side under the per-service lock, that leaves two rules with the name |
| ReconcilerFixpoint.EnsureConverges | cloudstack/loadbalancer.go:178-297 | Without API errors a successful Ensure leaves exactly one rule with the balancer's name, with the requested ports, protocol, algorithm and address and all tag keys, owned by the service, and reports its address and name |
| ReconcilerFixpoint.StepOnCourse | cloudstack/loadbalancer.go:563-930 | Inductive step of convergence: every error-free response keeps the call on course |
| ReconcilerFixpoint.EnsureIsFixpoint | cloudstack/loadbalancer.go:897-930 | On a settled cloud Ensure makes two requests, a search and the queue push, no mutating one, leaves the cloud as it is and returns the rule's address |
| ReconcilerFixpoint.EnsureTwice | cloudstack/loadbalancer.go:178-297 | Ensure after a successful Ensure, with the old or the returned status, changes nothing and returns the same status |
| ReconcilerFixpoint.PartlyTaggedUnmanaged | cloudstack/loadbalancer.go:1179-1218 | A rule with only the first of its tags is the service's to manage exactly when the status names the balancer |
| ReconcilerFixpoint.BalancerFound | cloudstack/loadbalancer.go:427-520 | An error-free call gets to its balancer by name, or by tags when no rule has the name, without changing the cloud |
| ReconcilerDeletion.DeleteExactly | cloudstack/loadbalancer.go:320-364 | Without errors, Delete of a service with a rule, found by name or by tags: it succeeds and touches nothing when removal is off or the rule is not the service's; else it removes exactly the rule, and its address exactly when that carries the service's tags, and fails exactly when that address does not exist |
| ReconcilerDeletion.DeleteOfNothing | cloudstack/loadbalancer.go:331-339 | Without a rule by name or tags, Delete only reads and ends without an error |
| ReconcilerOutcome.SwapReleasesExactly | cloudstack/loadbalancer.go:576-608 | Without errors, a successful Ensure for a service that asks for another address than its balancer has, found by name or by tags, drops the old rule and releases the old address exactly when it carries the service's tags, and leaves every other address alone |
| ReconcilerOutcome.SwapOfAddressExactly | cloudstack/loadbalancer.go:576-608 | The same for a service without a rule that has a tagged address |
| ReconcilerAddresses.RollbackFollows | cloudstack/loadbalancer.go:612-655 | In every trace, the request after a failure to tag an address is the release of that address, and it is the call's last: the call fails and the address never gets a rule |
| ReconcilerProgress.CallsEnd | cloudstack/loadbalancer.go:178-364 | Whatever the server answers, Ensure and Delete make at most 15 requests and then have finished |
| ReconcilerProgress.EveryAnswerCounts | cloudstack/loadbalancer.go:227-284 | Every answer, error or not, leaves a call strictly fewer requests to make |
| ReconcilerProgress.NewServiceSucceeds | cloudstack/loadbalancer.go:178-297 | For a service the cloud does not know, with supported ports and affinity and no address of its own, an Ensure call without API errors never ends in an error: it ends converged |
| ReconcilerOutcome.EnsureOutcome | cloudstack/loadbalancer.go:178-297 | How every error-free Ensure ends and the exact cloud it leaves: with a rule found by name or tags, without one and with a tagged, requested, adopted or new address, and refused without any change when rules or addresses are ambiguous |
| ReconcilerOutcome.EnsureOnSameAddress | cloudstack/loadbalancer.go:897-930 | On the right address a rule with the right ports and name is kept, with the requested algorithm and its missing tags added; any other gives way to one new rule with exactly the service's tags on the same address and network; unsupported affinity, foreign rule and bad ports are refused without any change |
| ReconcilerOutcome.RuleKeptExactly | cloudstack/loadbalancer.go:248-284 | After a successful error-free Ensure the rule it found is still there exactly when its ports, name and address are the requested ones; the algorithm alone never costs it |
| ReconcilerOutcome.EnsureOnOtherAddress | cloudstack/loadbalancer.go:237-297 | For another address, which must be there once and only once, the old rule goes, then the old address if it carries the service's tags, and then a new rule is made on the requested address, or the call fails for bad ports or a missing old address |
| ReconcilerOutcome.EnsureWithoutRule | cloudstack/loadbalancer.go:621-718 | Without a rule the new one is placed on the only tagged address, else the requested one, else the one in the status with the service's missing tags added, else a new one with exactly the service's tags; several tagged addresses, several addresses of one text or a missing requested one are refused |
| ReconcilerOutcome.AmbiguousRefused | cloudstack/loadbalancer.go:427-520 | Two rules with the name, or none and two with the service's tags, make Ensure and Delete fail without any change |
| ReconcilerOutcome.DeleteOutcome | cloudstack/loadbalancer.go:320-364 | How every error-free Delete ends: with a rule as in ReconcilerDeletion.DeleteExactly, without one successful and without a change, ambiguous refused |
| ReconcilerOutcome.FailureIsReported | cloudstack/loadbalancer.go:184-364 | In every trace of Ensure and Delete, a request that fails makes the call end in an error, at once or after giving back the address it was tagging |
| ReconcilerOutcome.StatusIsPushed | cloudstack/loadbalancer.go:259-297 | In every trace, a status is returned only right after the update was queued, and it names the balancer |
| ReconcilerOutcome.RuleWithoutAddress | cloudstack/loadbalancer.go:344-574 | For a rule that the server lists without an address Ensure searches one by tags, and Delete drops the rule and releases nothing |
| ReconcilerOutcome.NetworkAskedFor | cloudstack/loadbalancer.go:788-833 | In every trace an address is asked for only on the first node's network, or on that of a listed rule without an address, right after that network was found |
| ReconcilerRetries.FailedTaggingStrands | cloudstack/loadbalancer.go:265-278 | An Ensure run that creates its rule and fails to tag it ends in an error with one rule that has the confirmed tags, and one more if the failed request took effect; the next Ensure is refused and the next Delete skips the rule exactly when a tag is missing and the status does not name the balancer |
| ReconcilerRetries.FailedCreationStrands | cloudstack/loadbalancer.go:265-278 | The same for a creation that is reported as failed although it took effect |
| ReconcilerRetries.EnsureLeaves | cloudstack/loadbalancer.go:178-297 | Whatever fails in a run of Ensure for a new service, and wherever it is broken off, it leaves at most one rule, with the first of its tags, and at most one address that matches |
| ReconcilerRetries.RetryConvergesExactly | cloudstack/loadbalancer.go:178-297 | After any number of such runs an error-free run that ends has converged exactly when no half tagged rule was left |
| ReconcilerRetries.DeleteRetriedExactly | cloudstack/loadbalancer.go:340-361 | A Delete in which anything may fail and an error-free one after it remove the rule and its managed address, but for the one case in which the first stopped after dropping the rule |
| ReconcilerRetries.DeleteLeavesNoAddressExactly | cloudstack/loadbalancer.go:340-361 | After both, no address carries the service's tags exactly when only the balancer's did, it may be released, and the first call did not stop between the two |
| ReconcilerRetries.DeleteLeaks | cloudstack/loadbalancer.go:350-361 | A failing call that drops the rule and keeps the address |
| Client.Client.Call | cloudstack/fake/cloudstack.go:196-330 | One request: the next legal answer of the server, or a failure; the call's place, log and history advance together |
| LoadBalancer.LoadBalancer.GetLoadBalancer | cloudstack/loadbalancer.go:383-425 | Searches by name and then by tags, refuses ambiguity, and takes over the rule's address and network; if no search fails it comes up with the service's balancer, or with nothing where there is none |
| LoadBalancer.LoadBalancer.SetResourceTags | cloudstack/loadbalancer.go:1264-1289 | Creates the tags one by one in sorted key order, ignoring only "already exist", and stops at the first other error |
| LoadBalancer.TagKeysOrdered | cloudstack/loadbalancer.go:1269-1274 | Sorting the service's tag keys always gives the one order in which they are created |
| LoadBalancer.LoadBalancer.GetLoadBalancerIp | cloudstack/loadbalancer.go:621-657 | Tagged address, then requested address, then the status' address, then a new one; the last two are tagged and released when that fails |
| LoadBalancer.LoadBalancer.TryIpByTags | cloudstack/loadbalancer.go:674-718 | The one listed address whose tags match; none and several are told apart |
| LoadBalancer.LoadBalancer.LoadLoadBalancerIp | cloudstack/loadbalancer.go:563-574 | A valid address is kept, otherwise one is acquired with its network |
| LoadBalancer.LoadBalancer.DeleteLoadBalancerRule | cloudstack/loadbalancer.go:1130-1163 | The rule is forgotten exactly when the server confirms |
| LoadBalancer.LoadBalancer.ReleaseIpIfManaged | cloudstack/loadbalancer.go:599-608 | Reads the address back and releases it exactly when its tags are all the service's |
| LoadBalancer.LoadBalancer.UpdateLoadBalancerIp | cloudstack/loadbalancer.go:576-597 | Takes the requested address, drops the rule, then releases the old address if it was valid and managed |
| LoadBalancer.LoadBalancer.CheckLoadBalancerRule | cloudstack/loadbalancer.go:897-930 | Keeps a rule exactly when it has the same ports and name, and then asks for an update exactly when its algorithm is another one and for tags exactly when a key is missing; drops any other |
| LoadBalancer.LoadBalancer.CreateLoadBalancerRule | cloudstack/loadbalancer.go:951-1012 | Creates the rule with the name, algorithm, printed ports, network and address, and refuses bad ports without a request |
| LoadBalancer.LoadBalancer.EnsureLoadBalancer | cloudstack/loadbalancer.go:178-297 | The imperative call follows the program for every server behaviour; its whole log is guarded, and if no request failed it ends as ReconcilerOutcome.EnsureOutcome says, in every case, and a returned status means convergence |
| LoadBalancer.LoadBalancer.EnsureLoadBalancerDeleted | cloudstack/loadbalancer.go:320-364 | The imperative call follows the program; its whole log is guarded, and if no request failed its outcome and the cloud are those of ReconcilerOutcome.DeleteOutcome |
| LoadBalancer.GuardedFromTrace | cloudstack/loadbalancer.go:576-608 | Every deletion and release in a call's log is justified by what the call saw before it |
| Cloud.PickUnique | cloudstack/loadbalancer.go:460-475 | The counting loop returns the only element that passes the filter, and tells none from several |
| Cloud.ServeKeepsWellFormed | cloudstack/fake/cloudstack.go:276-418 | No request, failed or not, stores a resource under a wrong ID or reuses an ID |
| Controller.Controller.PrepareEnsure | cloudstack/loadbalancer.go:187-206 | Ensure gets as far as CloudStack exactly when the service has ports and a client, the registry update succeeds and some node serves it; the call then works with the service's balancer name, algorithm, address, status, removal flag and ports, and the least of those nodes' networks |
| Controller.Controller.UpdateLoadBalancer | cloudstack/loadbalancer.go:300-316 | Updates the registry and queues the service without a pool update; after a failed update nothing is queued |
| Controller.DefaultNamesClashExactly | cloudstack/loadbalancer.go:546-561 | In one environment two services without name labels share a balancer name exactly when they share a name, whatever their namespaces |
| Kube.EnvironmentExactly | cloudstack/instances.go:329-337 | The environment is the one a label, or else an annotation, names, and without one the only configured environment |
| Kube.ProjectExactly | cloudstack/instances.go:316-327 | The project is the one a label or annotation names, empty or not, else the environment's, and an error exactly when neither gives one |
| Kube.NameExactly | cloudstack/loadbalancer.go:546-561 | The balancer is named by the name label, else by the service's name and the suffix label, else by the service's name and the environment's domain |
| Kube.RemovalExactly | cloudstack/loadbalancer.go:368-380 | Removal is what the service's flag says when it parses, and otherwise what its environment says |
| Kube.AlgorithmExactly | cloudstack/loadbalancer.go:1367-1377 | Round robin without affinity, source for client IP affinity, and no algorithm for anything else |
| Kube.TargetPortExactly | cloudstack/loadbalancer.go:1558-1569 | Target ports are used exactly when the label or annotation is there, whatever its value |
| HostSync.SymmetricDifference | cloudstack/loadbalancer.go:1410-1432 | Assigns each missing host once; removes the instances left when every wanted host is struck out once |
| HostSync.StrikeOut | cloudstack/loadbalancer.go:1416-1424 | The loop over the instances: a wanted host is struck out at its first occurrence, and everything else is to be removed |
| HostSync.DifferenceExactExactly | cloudstack/loadbalancer.go:1417-1424 | The removals are exactly the unwanted hosts if and only if no wanted host is listed twice |
| HostSync.WantedIsRemovedExactly | cloudstack/loadbalancer.go:1417-1424 | A wanted host is removed exactly when it is listed more than once, an unwanted one exactly when it is listed |
| HostSync.HostApi.ListInstances | cloudstack/helpers.go:169-179 | Listing page by page, each of which can fail, gives every host of the rule exactly once or an error |
| HostSync.AssignNetworks | cloudstack/loadbalancer.go:1308-1349 | Maps every network to the rule in order, ignoring "already mapped", when the command is configured, and otherwise does nothing; a failure leaves some first part of them mapped |
| HostSync.SyncNodes | cloudstack/loadbalancer.go:1486-1519 | On success the rule's hosts are exactly the wanted ones, and the wanted hosts' networks are mapped besides if a host was missing; the writes map networks, assign the missing hosts and remove the unwanted ones, in this order and up to the first failure; a rule that has its hosts is only read; a failure loses no wanted host and adds no other; other rules keep theirs |
| UpdateWorker.Worker.ProcessEntry | cloudstack/service_queue.go:244-289 | Without matching nodes it fails and touches nothing. A balancer at hand is always worked on; without one, a found rule is worked on exactly when it has no ignore tag and either all the service's tags, the namespace optional, or a status that names it, and otherwise the entry succeeds and touches nothing. Working on a rule gives it the VMs of exactly the matching nodes and their networks, no write when it has them, and then its pools a pass if asked |
| UpdateWorker.Worker.ProcessQueued | cloudstack/service_queue.go:255-289 | The same with getLoadBalancer's own searches: if none fails, it is the service's balancer that is worked on, and nothing is touched when it is not managed or there is none |
| UpdateWorker.EnumeratedIds | cloudstack/nodes.go:166-186 | The host IDs handed to the synchronisation are exactly the VMs of the matching nodes |
| UpdateWorker.SettledPoolsAreSettled | cloudstack/loadbalancer.go:1014-1078 | On pools unique per port pair and ID, the pass an entry asks for settles every pool |
| Pools.GeneratePool | cloudstack/loadbalancer.go:1080-1108 | Edits exactly the first pool of the port whose health check differs from the wish, and none when the service gives no needed message |
| Pools.OutdatedIsFirst | cloudstack/loadbalancer.go:1094-1106 | The pool picked for a port is the first of its pair that differs from the wish, and none is picked exactly when no such pool differs |
| Pools.SettlePort | cloudstack/loadbalancer.go:1044-1076 | One port of the pass: edits the local copy, and sends an update exactly when a pool changed |
| Pools.UpdateLoadBalancerPool | cloudstack/loadbalancer.go:1014-1078 | For any list of pools, also with repeated pairs or IDs: the updates sent are those of the first ports in order, all of them took effect but perhaps a failed last one, and no other rule's pools change |
| Pools.ReachedIsSettled | cloudstack/loadbalancer.go:1042-1076 | On pools unique per port pair and ID a complete pass settles all of them, a failed one those of the first ports, and settled pools get no update |
| Pools.PassSettlesBoth | cloudstack/loadbalancer.go:1042-1076 | On such pools the edited local copy and the server's pools end up equal, every pool settled |
| Pools.PassMeans | cloudstack/loadbalancer.go:1080-1127 | After a complete pass each pool has the protocol, message and response that its port's name and the service's labels ask for, and a pool of no port or of a port without a needed message is as it was |
| Pools.SettledIsWanted | cloudstack/loadbalancer.go:1094-1106 | For ports with distinct public ports, going through them in turn gives each pool its own port's wish and nothing else |
| Pools.SecondPassSendsNothing | cloudstack/loadbalancer.go:1042-1076 | After a complete pass a second one sends no update, in whatever order the service lists its ports |
| Pools.UdpLeaksExactly | cloudstack/loadbalancer.go:1042-1061 | The update for an outdated port that does not ask for UDP carries the UDP parameters exactly when some port before it is outdated and asks for UDP |
| Pools.UdpLeaks | cloudstack/loadbalancer.go:1042-1061 | A TCP service with an outdated port named for UDP and one that is not sends both updates with the UDP parameters |
| Pools.WantedIsUpper | cloudstack/loadbalancer.go:1115-1127 | The health check types compared with the server's are upper case already, so the upper-casing in the request changes nothing |
| Pools.WantedExactly | cloudstack/loadbalancer.go:1080-1127 | By its name up to the first dash, in either case, a port asks for HTTP or HTTPS with the message and response of its labels, or for nothing when there is no message, for TCP or UDP, and otherwise for the balancer's own protocol |
| Pools.SkipsExactly | cloudstack/loadbalancer.go:1014-1025 | Pools are left alone exactly when the service has no custom health check label or annotation and the rule is not a UDP rule |
| Paging.Dedup | cloudstack/helpers.go:154-164 | The swap-with-last loop leaves pairwise distinct IDs, exactly the IDs of the list, on elements of the list |
| Paging.CollectPages | cloudstack/helpers.go:112-152 | The loop stops after at most max(1, C) requests for totals of at most C, never asks beyond the end of a fixed list, and gets it whole, in order, unless a page fails |
| Paging.ListAllPages | cloudstack/helpers.go:112-167 | A fixed list takes max(1, ceil(N / page size)) requests and comes back with exactly its IDs, once each, unless a page fails |
| Ports.ServiceToLbPorts | cloudstack/loadbalancer.go:1542-1578 | The ports in some order sorted by public port with their targets, stopping at the first bad one; what these are is Ports.LbPortsExactly |
| Ports.LbPortsExactly | cloudstack/loadbalancer.go:1542-1578 | The result has each of the service's ports once, by public port, with its node port, or with its target port as it resolves when the service asks for that; it is an error exactly for no ports, a protocol that is not TCP or UDP, mixed protocols or an unresolved target port |
| Ports.PortOrderIrrelevant | cloudstack/loadbalancer.go:1580-1584 | With distinct port numbers the result does not depend on the order of the service's ports |
| Ports.PrintPairInjective | cloudstack/loadbalancer.go:1615-1618 | Two port pairs that print alike are equal |
| Ports.ListAdditionalPorts | cloudstack/loadbalancer.go:1611-1621 | The printed pairs beyond the first in sorted order, and nil rather than empty when there are none |
| Ports.ComparePorts | cloudstack/loadbalancer.go:877-887 | Sorts and normalises the rule's pairs in place and compares all four strings; comparing again gives the same answer |
| Ports.ComparisonIsExact | cloudstack/loadbalancer.go:877-974 | Compared with a rule created from ports q, ports p are equal exactly when protocol and primary pair agree and the additional pairs agree as multisets |
| Ports.OwnPortsCompareEqual | cloudstack/loadbalancer.go:951-974 | A rule created from ports compares equal to them |
| Ports.CreatedExactly | cloudstack/loadbalancer.go:951-974 | A new rule has the first port in its own fields and every further one as "public:private" in a sorted list, nil when there is none |
| Ports.SortedListUnique | cloudstack/nodes.go:185 | A set of strings has only one sorted list |
| Tags.MatchAllTags | cloudstack/loadbalancer.go:659-670 | The counter loop with its early return is true exactly when the hits reach the number of wanted tags, of which there is at least one |
| Tags.HitsAreCounted | cloudstack/loadbalancer.go:659-670 | The counter's hits are the wanted tags that are there, once each, the repeats of these, and the foreign tags with an empty value |
| Tags.CountingIsInclusionExactly | cloudstack/loadbalancer.go:659-670 | Counting disagrees with inclusion exactly when some wanted tag is missing and at least as many positions repeat a wanted tag or hold an empty foreign one |
| Tags.CountingIsInclusion | cloudstack/loadbalancer.go:659-670 | With distinct keys and no empty foreign value, counting is inclusion |
| Tags.InclusionMatches | cloudstack/loadbalancer.go:659-670 | A resource with every wanted tag always matches |
| Tags.CountingCanBeFooled | cloudstack/loadbalancer.go:659-670 | Repeated keys, or empty foreign values, make resources match that lack wanted tags |
| Tags.ManageIpIsMatch | cloudstack/loadbalancer.go:1166-1176 | On distinct keys with no empty foreign value, shouldManageIP and matchAllTags agree |
| Tags.IsIpManaged | cloudstack/loadbalancer.go:1166-1176 | True exactly when the first tag with each wanted key has the wanted value |
| Tags.IsLbManaged | cloudstack/loadbalancer.go:1179-1218 | True exactly without the ignore tag and with every wanted tag, the namespace optional, or with the status naming the balancer |
| Tags.LbOwnershipExactly | cloudstack/loadbalancer.go:1179-1218 | A rule is the service's to manage exactly when no tag has the ignore key and either the first tags with the provider and service keys have the service's values and the first with the namespace key, if any, has its namespace, or the status has one ingress that names the balancer |
| Tags.IpOwnershipExactly | cloudstack/loadbalancer.go:1166-1176 | An address is the service's to release exactly when the first tag with each of the three keys has the service's value |
| Tags.HasMissingTags | cloudstack/loadbalancer.go:1220-1233 | True exactly when one of the three keys is absent, whatever the values |
| JsonPointer.EncodeHasNoSlash | cloudstack/loadbalancer.go:1529 | An escaped key has no slash |
| JsonPointer.DecodeEncode | cloudstack/loadbalancer.go:1529 | Decoding by section 4 of RFC 6901 gives every key back |
| JsonPointer.LabelPathTokens | cloudstack/loadbalancer.go:1531-1540 | The patch path parses to exactly the tokens metadata, labels and the key |
| ProviderId.PrefixedRoundTrip | cloudstack/instances.go:42-158 | With the scheme in front, every ID without slashes in its parts reads back |
| ProviderId.RoundTripExactly | cloudstack/instances.go:42-158 | Without the scheme it reads back exactly unless the environment is the scheme's own text and the project is empty, when it is rejected |
| ProviderId.ParseAccepts | cloudstack/instances.go:147-158 | Exactly the strings with two slashes after trimming are accepted, and the parts put together again are the trimmed string |

## Left out

- HTTP, JSON decoding and the CloudStack and Kubernetes clients; an asynchronous job and its request are one step, so a failed job that takes effect after the call has moved on is not modelled.
- Wall clock, timers, the rate limiter and goroutine scheduling in the worker loop: clock readings and the backoff are inputs, and workers are scheduled arbitrarily.
- GetLoadBalancer, the read-only query, whose lookup is the one Ensure and Delete start with.
- The project label patch, extra parameters from labels and annotations, delete command arguments, and the choice of VPC or network when an address is associated.
- The project and environment parameters of requests: one project's resources are modelled.
- Paging of rule listings, which the code does not do: one response is the complete list, and its count is its length.
- The pages of the address listing inside a call: the reconciler treats that listing as one request.
- The endpoints lookup behind target port names, and the VM cache: a resolver function and lookup answers are inputs.
- The nil service guards, the parsing of configuration, zones, node addresses, instance queries, metrics, events and log texts.
- Pointers to registry nodes and to queued services: the code changes node entries behind the map's pointers under a lock and copies services into the queue, and the model holds values.
- LoadBalancer.LoadBalancer.CheckLoadBalancerRule: does not keep the sorted port strings in the remembered rule, because nothing reads them after the comparison; the sorting itself is stated by Ports.ComparePorts.
- LoadBalancer.LoadBalancer.CreateLoadBalancerRule: uses the ports computed once per call, where the code computes them again; for distinct port numbers Ports.PortOrderIrrelevant shows that this makes no difference.
- ReconcilerWorld.NeverTwoRules: asks for distinct balancer names of services in progress, because default names leave out the namespace.
- ReconcilerWorld.NeverTwoAddresses: asks for clean takeovers, because of the run in ReconcilerTakeover.TakeoverBreaks.
- ReconcilerFixpoint.EnsureConverges: asks that listed addresses and rule addresses are complete and agree, because the code does not check them.
- ReconcilerTakeover.TakeoverRunExactly: speaks of confirmed tags, each of which is stored, as cloudstack/fake/cloudstack.go:420-432 does; a server that refuses repeated keys can only leave fewer tags.
- ReconcilerDeletion.DeleteExactly: for a rule found by its tags, asks that it is the only match and carries the service tag literally; a rule that matches without it may or may not be listed.
- ReconcilerOutcome.EnsureOutcome: the same, for rules and for addresses; and like EnsureConverges it starts from complete addresses, except for ReconcilerOutcome.RuleWithoutAddress.
- ReconcilerRetries.RetryConvergesExactly: is about services that request no address and have no status yet, and about Ensure runs alone.
- UpdateWorker.Worker.ProcessEntry: takes what getLoadBalancer found as an input; UpdateWorker.Worker.ProcessQueued runs the lookup itself.
- Pools.ReachedIsSettled: asks for one pool per port pair and distinct pool IDs, because the code edits only the first pool that differs.
- Sorting is its contract, some sorted permutation; which one of several is not fixed.
- Which network a rule is created in when its nodes change between calls.
