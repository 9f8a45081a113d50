# Verified model of the L2S-CES multi-domain controller

L2S-CES runs on a hub cluster. Two reconcilers, for `SliceNetwork` and for `SliceOverlay`, ship one
ManifestWork per managed cluster, and remove those works again when the object is deleted. This
project models that protocol, and the arithmetic, graph and string code that computes what is
shipped, and proves properties of the model with Dafny 4.11:

    dafny verify dfyconfig.toml

## Structure

| file | content |
|---|---|
| `Wrappers.dfy`, `Resources.dfy` | options and results; the custom resources and the manifests |
| `Hub.dfy` | the hub as a state machine: users, other writers and reconcilers take turns, one API call at a time, and any call may fail |
| `Safety.dfy`, `Effects.dfy` | the invariant of all runs; what one call can change |
| `Lifecycle.dfy` | no orphans, clean disappearance, no lost updates |
| `Interference.dfy` | which objects can get in each other's way |
| `Progress.dfy` | convergence, idempotence, completed deletion |
| `Limits.dfy` | where the code stops short, with runs that get there |
| `ApiCalls.dfy` | what each API call leaves behind, by its reply |
| `Client.dfy` | the reconcilers and the OCM client as imperative code that refines the state machine |
| `WorkNames.dfy` | sanitising of work names |
| `Arithmetic.dfy`, `Subnets.dfy`, `Monitoring.dfy` | prefixes, carving of networks, monitoring addresses |
| `Topology.dfy`, `Neighbours.dfy`, `Devices.dfy`, `Slices.dfy` | mesh, neighbour tables, edge devices, the plan of a whole object |
| `Providers.dfy` | provider resolution and the watch on provider profiles |
| `Shipments.dfy` | what is in the clusters after a reconcile, told from spec, provider and addresses alone |

## How the protocol is modelled

The store of an object is the history of what was stored under its key, so a cached read of the
reconciler may return an old snapshot. The client for ManifestWorks is not cached, so its reads
are current. Every accepted write takes a new version from one counter. A step is one user action,
one action of another writer, or one API call of a reconciler. A call can be lost (it never takes
effect) or unanswered (it takes effect, and the caller sees an error). A run is any sequence of
steps; the theorems are about all runs.

`Client.Controller` is the code itself: methods with the loops, branches and error returns of the
program, and an environment that acts before each API call. Its `Valid` says that the state is the
one that the recorded run of the state machine reaches, and every method keeps it. So what is
proved of all runs holds of every state this code goes through (`Client.Controller.NoStateOrphans`).
When nobody interferes and no call fails, the steps it takes are those of the clean reconcile or the
clean deletion of `Progress.dfy`, so the convergence theorems are about the code as well.

Assumptions:

- one reconcile per key at a time (the work queue), while different keys interleave freely;
- cached reads may be stale but never return an older snapshot than an earlier read of the same key;
- the API server accepts an update only on the version that was read, takes no new finalizer on an
  object that is being deleted, and removes such an object with its last finalizer;
- nobody but its reconciler takes the finalizer of the controller off an object; everyone may
  change the spec, add or remove other finalizers, create, delete and re-create;
- ManifestWorks are created by the reconcilers only; other writers may change and remove existing
  works at any time;
- a call takes effect at one instant between being issued and returning;
- a manifest that cannot be converted is an error before the first read for that cluster, like a
  read that fails;
- `retry.DefaultRetry` allows five attempts, and only a conflict is retried.

Three history variables record what happened, and no step's course depends on them: `dropped`, the
clusters that an edit took off the list of a claimed object, until a claimed object under the same
key lists them again; `landed`, the log of ManifestWork writes that reached the store; and the
`writer` of a work, the reconciler that wrote it last. Lemmas say what they mean:
`Lifecycle.DroppedByEdits` and `Lifecycle.EveryWriteLogged`. The theorems on orphans are stated on
the run itself, without `dropped`.

## Findings

- Deletion visits only the clusters that are listed at that time. When an edit has dropped a cluster
  and no later edit lists it again, its work survives the object: `Limits.DroppedWorkIsStranded`
  shows it from every reachable state and for every continuation that leaves the work alone,
  `Limits.StrandingHappens` gives a run for every object with a cluster to drop, and
  `Lifecycle.LeftBehind` says exactly which works remain when an object lets go. Nothing else
  remains (`Lifecycle.GoneWithoutTrace`).
- A work name carries neither kind nor namespace. Deleting one object takes away the works of
  another, live one with the same work name in every cluster it lists (`Limits.SharedNameIsShared`;
  `Limits.SharingHappens` gives a run for any two such objects). Objects that share no work name, or
  no cluster, cannot touch each other (`Interference.ObjectsKeepApart`).
- Monitoring addresses are counted from the address as written, not from the masked network
  address. All of them are host addresses exactly when the host bits leave enough room
  (`Monitoring.HostsStayInsideExactly`).
- Which names share a work name is settled exactly (`WorkNames.CollisionsExactly`). Names that the
  API server accepts for objects are never rewritten, so among objects in the hub only equal names
  share a work name (`Interference.AcceptedNamesKeepApart`); collisions by rewriting concern other
  callers of the client.
- The test of `ApplyCIDRs` looks for the block in `NetworkCIDR`; the code puts it in
  `PodAddressRange`. The model follows the code.

## Model

| member | source | states |
|---|---|---|
| Safety.RunKeepsSound | internal/controller/sliceoverlay_controller.go:65-112 | every step of every run keeps the invariant: a claimed live snapshot that can still be read is backed by a stored object that kept its finalizer, and every work is answered for |
| Safety.ReleaseKeepsAnswered | internal/controller/slicenetwork_controller.go:75-90 | when the finalizer goes, no listed cluster holds a work of this object, and every work is answered for as before |
| Lifecycle.NoOrphans | internal/controller/slicenetwork_controller.go:75-110 | in every reachable state a work is there either for an object that carries its finalizer and lists the cluster, or in a cluster that an edit took off its list and that no claimed object under the key has listed since; never both |
| Lifecycle.DroppedByEdits | pkg/mdclient/ocmclient.go:76-93 | a cluster counts as dropped exactly when some accepted edit of the run took it off the list of the claimed object, and no claimed object under the key has listed it since |
| Lifecycle.GoneWithoutTrace | internal/controller/sliceoverlay_controller.go:77-92 | an object that is gone or unclaimed has no work in any cluster but those that edits took off and that were not listed again since |
| Lifecycle.CleanDisappearance | internal/controller/slicenetwork_controller.go:75-90 | when the finalizer-removing update is accepted, the list just cleaned is the stored one, no cluster on it holds a work of the object, and no later step of any continuation writes one for that incarnation, stale reads included |
| Lifecycle.LeftBehind | pkg/mdclient/ocmclient.go:197-217 | the works of the object that survive its release are exactly those in clusters off its list, and all those clusters were taken off by edits and not listed again since |
| Lifecycle.EveryWriteLogged | pkg/mdclient/ocmclient.go:234-250 | a call either changes no work (or removes some) and logs nothing, or makes one logged write; a write over a work replaces the very work that was read and keeps everything but labels and spec |
| Lifecycle.ReconcilerKeepsObject | internal/controller/slicenetwork_controller.go:82-97 | in every run, no step of the reconciler changes spec, identity or another finalizer of its object, and none makes it vanish while someone else holds it |
| Lifecycle.OthersKeepHold | internal/controller/sliceoverlay_controller.go:84-98 | whoever holds an object with a finalizer of their own keeps hold of it through every step of its reconciler |
| Effects.RequestEffect | pkg/mdclient/ocmclient.go:56-92 | one call touches only works under the object's own work name in clusters of the list its reconcile read, logs at most one write there, and leaves every other key alone |
| Interference.NonInterference | pkg/mdclient/ocmclient.go:157-216 | over any run a work changes only through another writer, or through a reconcile of an object with its name as work name, after it read a list with its cluster |
| Interference.ObjectsKeepApart | pkg/mdclient/ocmclient.go:370-385 | for objects with different work names, or whose lists never meet: in a run where everyone moves, no step of the reconciler of one changes a work of the other |
| Interference.AcceptedNamesKeepApart | pkg/mdclient/ocmclient.go:400-403 | objects with names that Kubernetes accepts share a work name exactly when they have the same name |
| Interference.WorkNameIsValid | pkg/mdclient/ocmclient.go:370-385 | every work name is a DNS-1123 subdomain, and it is the name of the object when that is one |
| Progress.Convergence | internal/controller/sliceoverlay_controller.go:94-119 | from any reachable state one clean reconcile of a live object leaves the planned labels and spec in every listed cluster, keeps all other works, and leaves the object claimed with its spec unchanged |
| Progress.Idempotence | pkg/mdclient/ocmclient.go:95-195 | a second clean reconcile with the same plan changes no work's labels or spec |
| Progress.DeletionCompletes | internal/controller/slicenetwork_controller.go:75-90 | one clean reconcile of a deleted object removes its work name from every listed cluster, touches no other work and gives the object up; it vanishes exactly when no other finalizer is left |
| Limits.DroppedWorkIsStranded | pkg/mdclient/ocmclient.go:78-90 | from any reachable state: edit a cluster off the list, delete, reconcile cleanly; the object is gone, that cluster's work is as it was, and it stays so through every continuation that leaves it alone |
| Limits.StrandingHappens | pkg/mdclient/ocmclient.go:78-90 | for every object with a cluster to drop there is such a run from the empty hub |
| Limits.SharedNameIsShared | pkg/mdclient/ocmclient.go:188-213 | a clean deletion of one object removes a work of another object with the same work name, which stays stored as it was: live, claimed, and listing the cluster |
| Limits.SharingHappens | pkg/mdclient/ocmclient.go:65-72 | for any two objects with one work name and a cluster in common there is a run from the empty hub that gets there |
| Client.ReconcileConverges | internal/controller/slicenetwork_controller.go:99-113 | for an object whose provider resolves and whose plan can be made, a clean reconcile from any reachable state leaves exactly that plan, and a second one changes nothing |
| Client.CalmStepsAchieve | internal/controller/sliceoverlay_controller.go:60-120 | the steps of an undisturbed reconcile, from any reachable state: everything written as planned, or everything cleaned up and the object given up, or no work touched, as the result says |
| Client.Controller.NoStateOrphans | internal/controller/slicenetwork_controller.go:60-114 | every state that the code goes through satisfies the no-orphan statement |
| Shipments.NetworkIsShipped | pkg/l2sminterface/l2network_generator.go:28-47 | from any reachable state, one clean reconcile of a live network leaves in each listed cluster exactly one manifest: the network under its name, with its namespace and type or their defaults, the provider it resolves to, and the label of the controller |
| Shipments.SliceIsShipped | pkg/mdclient/ocmclient.go:95-195 | from any reachable state, one clean reconcile of a live overlay that can be planned leaves in each listed cluster exactly one manifest: its device, with the neighbours, addresses, monitor, namespace and provider that spec and provider ask for |
| Client.Controller.ApplyManifestWork | pkg/mdclient/ocmclient.go:234-250 | ends within the retry budget; success means the store holds the desired labels and spec at that moment; an API rejection means this call wrote nothing, and an exhausted conflict used the whole budget; without faults, removals and other reconcilers in between, up to four disturbances are overcome |
| Client.Controller.Update | pkg/mdclient/ocmclient.go:246-248 | an accepted update writes labels and spec and keeps the rest of the work that was read; a conflict means another version is stored, and leaves it for another attempt; a work that is gone is no conflict |
| Client.Controller.ApplyNetwork | pkg/mdclient/ocmclient.go:46-74 | writes the planned manifest to the listed clusters in order; an error at the i-th leaves exactly the ones before it written by this call, and perhaps the i-th when the answer was lost |
| Client.Controller.ComputeSlice | pkg/mdclient/ocmclient.go:100-156 | the loops compute the planned links, addresses and monitoring addresses, or the first error of the plan |
| Client.Controller.WriteDevices | pkg/mdclient/ocmclient.go:157-192 | ships the planned content device by device; after the whole loop each device still has its planned content, no two share a monitor or their neighbours, and none has the slice's own monitor |
| Client.Controller.ApplySlice | pkg/mdclient/ocmclient.go:95-195 | a topology, resolution or allocation error leaves the whole hub as it was; otherwise clusters are written in order, and an error at the i-th leaves exactly the ones before it written |
| Client.Controller.Delete | pkg/mdclient/ocmclient.go:80-90 | a success leaves no work at this key, missing before or not; an error ends the reconcile |
| Client.Controller.DeleteWorks | pkg/mdclient/ocmclient.go:76-93 | visits the listed clusters in order and stops at the first error; no visited cluster holds a work of this object, and success means that all were visited |
| Client.Controller.AddFinalizer | internal/controller/sliceoverlay_controller.go:94-99 | an accepted claim replaced exactly the object that was read, by the same object with the finalizer added to the others |
| Client.Controller.RemoveFinalizer | internal/controller/sliceoverlay_controller.go:84-87 | success means that the update replaced exactly the object that was read, by the same object without the finalizer, or by nothing when that was the last one |
| Client.Controller.Reconcile | internal/controller/slicenetwork_controller.go:60-114 | refines the state machine; success on a live object means every listed cluster was written once and in order, an error that the clusters up to some point were, and nothing else; without interference and faults its steps are those of the clean run, and it leaves everything written as planned or everything cleaned up |
| WorkNames.SanitizeManifestWorkName | pkg/mdclient/ocmclient.go:400-441 | the loop with its dash flag computes the specification of the rewriting |
| WorkNames.RewritingJoinsWords | pkg/mdclient/ocmclient.go:410-430 | squeezing and trimming yield the maximal runs of letters and digits, joined by single dashes |
| WorkNames.RewrittenName | pkg/mdclient/ocmclient.go:405-440 | a rewritten name is a label of at most 63 characters without a double dash: the joined words, cut, or "manifestwork" when there is no word |
| WorkNames.LowerCaseSuffices | pkg/mdclient/ocmclient.go:405 | a name that only lower-casing makes acceptable becomes its lower case |
| WorkNames.LowerRuneOnAscii | pkg/mdclient/ocmclient.go:405 | capital letters become small, and nothing else that may stand in a name changes |
| WorkNames.SanitizeIsValid | pkg/mdclient/ocmclient.go:400-441 | every input, under every lower-casing map, becomes a DNS-1123 subdomain |
| WorkNames.SanitizeIsIdempotent | pkg/mdclient/ocmclient.go:400-403 | sanitising twice is sanitising once |
| WorkNames.SecondFallbackUnreachable | pkg/mdclient/ocmclient.go:434-439 | what is left after the cut at 63 characters is never empty |
| WorkNames.CollisionsExactly | pkg/mdclient/ocmclient.go:400-441 | two names get the same work name exactly when: both are accepted and equal; both are rewritten and have the same words as far as 63 characters go (a name without words counts as the fallback); or the accepted one is a label of just these words of the other |
| WorkNames.CollisionExample | pkg/mdclient/ocmclient.go:405-408 | two different names that need rewriting get the same work name |
| Arithmetic.BinaryLength | pkg/l2sminterface/l2network_generator.go:60-62 | the length of the binary printout of n brackets n between powers of two |
| Subnets.ApplyCidrs | pkg/l2sminterface/l2network_generator.go:50-96 | the result lists blocks 1 to n at the longer prefix, in the pod address range, with no 32-bit sum or product wrapping; the error is returned when the prefix exceeds 32 |
| Subnets.CarvingIsSafe | pkg/l2sminterface/l2network_generator.go:57-93 | the blocks are aligned, inside the parent network and the address space, and no address is in two of them or in block 0 |
| Subnets.BlocksFollowEachOther | pkg/l2sminterface/l2network_generator.go:70-88 | block 0 starts where the parent network does, and each block starts where the one before it ends |
| Subnets.CarvingIsTight | pkg/l2sminterface/l2network_generator.go:60-69 | with any shorter prefix block n starts past the end of the parent network |
| Subnets.CarvingFailsExactly | pkg/l2sminterface/l2network_generator.go:62-66 | the error condition holds exactly when the parent has fewer than 2^bits addresses |
| Monitoring.AllocateMonitoringNodeIps | pkg/mdclient/ocmclient.go:308-368 | the checks and the loop compute the specified allocation or the first error |
| Monitoring.HandOut | pkg/mdclient/ocmclient.go:346-365 | the loop hands out host numbers in order, up to a name that is empty or already seen |
| Monitoring.AllocationSucceedsExactly | pkg/mdclient/ocmclient.go:316-356 | success exactly on an IPv4 prefix of at most 30 bits with room for all and distinct non-empty names |
| Monitoring.AllocationErrors | pkg/mdclient/ocmclient.go:312-356 | which error is reported: network, size, room, then the first name that is empty or a repetition |
| Monitoring.AllocationIsInjective | pkg/mdclient/ocmclient.go:346-365 | exactly the named clusters get an address, the i-th name host number i + 1, one mask for all, no address twice |
| Monitoring.HostsStayInsideExactly | pkg/mdclient/ocmclient.go:321-364 | all addresses lie strictly between network and broadcast address exactly when host offset plus count is at most 2^(32-prefix) - 2, and always when the host bits are zero |
| Topology.GenerateTopology | pkg/topologygenerator/topology_generator.go:21-36 | the double loop makes the mesh |
| Topology.LinksMatchPairs | pkg/topologygenerator/topology_generator.go:25-33 | the k-th link joins the k-th index pair, and all pairs are in range and increasing |
| Topology.EveryPairOnce | pkg/topologygenerator/topology_generator.go:25-33 | every index pair i < j is at exactly one position, and nothing else is at any |
| Topology.MeshSize | pkg/topologygenerator/topology_generator.go:22-23 | the mesh has n(n-1)/2 links, the preallocated capacity |
| Topology.MeshJoinsOnce | pkg/topologygenerator/topology_generator.go:21-36 | with distinct names every two nodes are joined by exactly one link, and no node by one to itself |
| Neighbours.ResolveAddresses | pkg/mdclient/ocmclient.go:109-128 | the loop computes the address book of the clusters, or the first cluster that does not resolve |
| Neighbours.BookHoldsAddresses | pkg/mdclient/ocmclient.go:112-127 | the address of a name is the gateway of the last cluster of that name when it has one, and otherwise what the name resolves to |
| Neighbours.ResolutionFailsExactly | pkg/mdclient/ocmclient.go:114-121 | there is a book exactly when every cluster has a gateway or resolves; otherwise the first one with neither is named |
| Neighbours.BuildTable | pkg/mdclient/ocmclient.go:160-174 | the loop over the links computes the neighbour table |
| Neighbours.TableInOrder | pkg/mdclient/ocmclient.go:160-174 | the table for longer links is put together from those of the parts, in order |
| Neighbours.TableOfOne | pkg/mdclient/ocmclient.go:161-172 | one link gives the entry of its other end, an empty entry when that end is not listed, or nothing |
| Neighbours.NeighboursAreMutual | pkg/mdclient/ocmclient.go:157-174 | with links between distinct listed clusters, b is in a's table as often as a is in b's: the number of links between them |
| Neighbours.EntriesAreListed | pkg/mdclient/ocmclient.go:164-172 | every entry is another listed cluster with that cluster's own address |
| Neighbours.TablesHoldEnds | pkg/mdclient/ocmclient.go:157-174 | all tables together hold one entry for each listed end of each link |
| Neighbours.TwoEntriesPerLink | pkg/mdclient/ocmclient.go:157-174 | that makes two entries per link exactly when every link joins two distinct listed clusters |
| Neighbours.MeshTable | pkg/mdclient/ocmclient.go:106-174 | with the default mesh the table of the k-th cluster is the node list without its k-th, in order, each with its address |
| Devices.NedGenerator.constructor | pkg/l2sminterface/ned_generator.go:59-88 | empty ports get their defaults and the first domain is kept |
| Devices.DeviceProviderFields | pkg/l2sminterface/ned_generator.go:59-88 | each port is that of the spec, or its own fallback when the spec has none |
| Devices.NedGenerator.ConstructNed | pkg/l2sminterface/ned_generator.go:89-141 | the device is the specified manifest, made of fresh objects; its monitor is a copy that carries the cluster's own address, present exactly for a monitored cluster |
| Slices.MonitoringAgrees | pkg/l2sminterface/ned_generator.go:97-138 | whatever the links, the address any device has for a neighbour is the one in that neighbour's own manifest; these addresses are pairwise distinct and share one mask |
| Slices.MonitoringCounts | pkg/mdclient/ocmclient.go:146-152 | addresses are counted from the network that the spec gives, and are 10.0.0.1, 10.0.0.2, ... with 24 mask bits when it gives none |
| Slices.PlanSucceedsExactly | pkg/mdclient/ocmclient.go:100-156 | a slice is planned exactly when it has a topology, every cluster has an address, and monitoring addresses can be handed out where asked for |
| Slices.PlanErrors | pkg/mdclient/ocmclient.go:100-156 | the first of these things that is wrong is reported |
| Slices.DeviceFields | pkg/l2sminterface/ned_generator.go:112-138 | name, namespace and provider of a device; its monitor is the slice's own but for the address, and there is none without monitoring |
| Slices.DevicesFollowLinks | pkg/mdclient/ocmclient.go:105-174 | links that the spec gives are the ones that count: each other cluster is a neighbour once for each link of the spec between the two, and nothing else is |
| Slices.NeighborsHaveAddresses | pkg/mdclient/ocmclient.go:109-172 | the address that a device has for a neighbour is its gateway, or else what its name resolves to |
| Slices.DefaultMeshDevices | pkg/mdclient/ocmclient.go:104-180 | with no links given, the device of the k-th cluster lists all other clusters in order, each with its gateway or else what its name resolves to |
| Providers.RequestsForProviderProfile | internal/controller/slicenetwork_controller.go:136-177 | the watch enqueues exactly the objects without an inline provider whose reference means the profile |
| Providers.ReadersInOrder | internal/controller/slicenetwork_controller.go:147-176 | it does so in list order, once for each of them |
| Providers.ReferenceMeans | internal/controller/provider_resolver.go:31-69 | an inline provider wins; otherwise the result depends only on the profile that the reference means |
| Providers.ReferenceCases | internal/controller/provider_resolver.go:47-69 | case by case: the namespace of the reference or the own one, the name of the reference or "default" |
| Providers.UnlistedKeepProvider | internal/controller/provider_resolver.go:31-69 | whatever happens to a profile, an object that is not enqueued resolves to the same provider or failure |
| Providers.ListedDoRead | internal/controller/sliceoverlay_controller.go:158-187 | every enqueued object without exception resolves to what the profile holds |

## Left out

- Generated code, gRPC mapping, command line, TLS, metrics, manager set-up and RBAC: field copies, configuration and I/O.
- The REST client (every operation returns an error) and the secrets operator.
- Endpoint lookup (`resolveEndpointToIP`, DNS): cluster addresses are an arbitrary partial function, so the reads of ManagedClusters are not steps.
- Text forms of addresses and prefixes: networks start from address and prefix, and addresses are numbers.
- Manifest encoding, kinds and API versions, and the node configuration of a device, which this path never sets.
- A missing multi-domain client: a configuration error that ends every reconcile after its read.
- Finalizers of ManifestWorks themselves: deleting a work removes it at once.
- API calls that take effect after their caller has given up, and caches that go back in time after a restart.
- The unused overlay generator and the workload patch instructions.
- Subnets.ApplyCidrs: an IPv6 network that would not exceed 32 bits and a negative count are excluded, because the program panics on them.
- Progress.Convergence: is about an undisturbed reconcile; under interference the code promises only what `Client.Reported` states, because a later writer may overwrite any work.
- Providers.RequestsForProviderProfile: models the two watch functions, which differ only in the kind of the list, as one.
- Client.Controller.DeleteWorks: models the loops of DeleteNetwork and DeleteSlice, which differ only in where the list comes from, as one; a slice without topology has an empty list.
- Client.Controller.Reconcile: models both reconcilers, which differ in the finalizer and in the calls for their kind, as one.
