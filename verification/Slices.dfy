/** What is planned for each cluster of an object before anything is written. */
module Slices {
  import opened Wrappers
  import opened Resources
  import opened Arithmetic
  import opened Topology
  import opened Neighbours
  import opened Monitoring
  import opened Devices

  const LABELS: map<string, string> := map["app" := "l2sm"]

  const DEFAULT_MONITORING_CIDR: Cidr := V4(0x0A00_0000, 24)

  datatype SliceError = NoTopology | Unresolved(cluster: string) | NoAddresses(error: AllocationError)

  /** The links of the spec, or the full mesh when it has none. */
  function SliceLinks(topology: OverlayTopology): seq<Link> {
    if topology.links == [] && |topology.nodes| > 1 then Mesh(ClusterNames(topology.nodes)) else topology.links
  }

  function MonitoringCidr(monitoring: MonitorSpec): Cidr {
    if monitoring.networkCidr.Some? then monitoring.networkCidr.value else DEFAULT_MONITORING_CIDR
  }

  /** The monitoring addresses of a slice; none when monitoring is off. */
  function MonitoringAddresses(monitoring: Option<MonitorSpec>, names: seq<string>)
    : Result<Allocation, AllocationError>
  {
    match monitoring
    case None => Success(map[])
    case Some(spec) => Allocate(MonitoringCidr(spec), names)
  }

  function NetworkManifest(k: Key, spec: Spec, provider: ProviderSpec): Manifest
    requires spec.NetworkSpec?
  {
    L2Network(k.name, DefaultIfEmpty(k.namespace, "default"), DefaultIfEmpty(spec.networkType, "vnet"), Some(provider))
  }

  /** The same manifest for every cluster of the list. */
  function PlanNetwork(k: Key, spec: Spec, provider: ProviderSpec): (plan: seq<Content>)
    requires spec.NetworkSpec?
    ensures |plan| == |Targets(spec)|
    ensures forall i :: 0 <= i < |plan| ==> plan[i] == Content(LABELS, [NetworkManifest(k, spec, provider)])
  {
    seq(|spec.clusters|, _ => Content(LABELS, [NetworkManifest(k, spec, provider)]))
  }

  /** What a slice gives its clusters once links, addresses and monitoring addresses are known. */
  datatype SlicePlan = SlicePlan(
    namespace: string, provider: ProviderSpec, monitoring: Option<MonitorSpec>,
    names: seq<string>, links: seq<Link>, book: AddressBook, addresses: Allocation)
  {
    predicate Valid() {
      monitoring.None? ==> addresses == map[]
    }

    function DeviceOf(cluster: string): Manifest
      requires Valid()
    {
      DeviceManifest(provider, monitoring, Table(cluster, links, book), addresses, cluster, namespace)
    }

    function Contents(): (plan: seq<Content>)
      requires Valid()
      ensures |plan| == |names|
      ensures forall i :: 0 <= i < |plan| ==> plan[i] == Content(LABELS, [DeviceOf(names[i])])
    {
      seq(|names|, i requires 0 <= i < |names| => Content(LABELS, [DeviceOf(names[i])]))
    }
  }

  function PlanSlice(k: Key, spec: Spec, provider: ProviderSpec, resolve: Resolver, ports: Ports)
    : (r: Result<SlicePlan, SliceError>)
    requires spec.OverlaySpec?
    ensures r.Success? ==>
      && r.value.Valid() && r.value.names == Targets(spec)
      && r.value.provider == DeviceProvider(provider, ports) && r.value.monitoring == spec.monitoring
  {
    match spec.topology
    case None => Failure(NoTopology)
    case Some(topology) =>
      match Addresses(topology.nodes, resolve)
      case Failure(name) => Failure(Unresolved(name))
      case Success(book) =>
        match MonitoringAddresses(spec.monitoring, ClusterNames(topology.nodes))
        case Failure(error) => Failure(NoAddresses(error))
        case Success(addresses) =>
          Success(SlicePlan(DefaultIfEmpty(k.namespace, "he-codeco-netma"), DeviceProvider(provider, ports),
                            spec.monitoring, ClusterNames(topology.nodes), SliceLinks(topology), book, addresses))
  }

  // ------------------------------------------------------------------ the plan as a whole

  lemma PlannedBookListsNames(k: Key, spec: Spec, provider: ProviderSpec, resolve: Resolver, ports: Ports)
    requires spec.OverlaySpec? && PlanSlice(k, spec, provider, resolve, ports).Success?
    ensures var plan := PlanSlice(k, spec, provider, resolve, ports).value;
            forall name :: name in plan.book <==> name in plan.names
  {
    var nodes := spec.topology.value.nodes;
    BookListsClusters(nodes, resolve, |nodes|);
    assert ClusterNames(nodes)[..|nodes|] == ClusterNames(nodes);
  }

  /** The monitoring address that a manifest gives the cluster it is for. */
  function OwnAddress(m: Manifest): Option<HostAddress> {
    if m.NetworkEdgeDevice? && m.monitor.Some? then m.monitor.value.ipCidr else None
  }

  /** When every link joins two distinct listed clusters, all neighbours of a device are other listed clusters. */
  lemma NeighborsAreNamed(k: Key, spec: Spec, provider: ProviderSpec, resolve: Resolver, ports: Ports, a: nat)
    requires spec.OverlaySpec? && PlanSlice(k, spec, provider, resolve, ports).Success?
    requires var plan := PlanSlice(k, spec, provider, resolve, ports).value;
             a < |plan.names| && AllProper(plan.links, plan.book)
    ensures var plan := PlanSlice(k, spec, provider, resolve, ports).value;
            forall n <- Table(plan.names[a], plan.links, plan.book) :: n.node in plan.names && n.node != plan.names[a]
  {
    var plan := PlanSlice(k, spec, provider, resolve, ports).value;
    PlannedBookListsNames(k, spec, provider, resolve, ports);
    EntriesAreListed(plan.names[a], plan.links, plan.book);
  }

  /** Monitoring addresses agree across manifests: whatever address any device has for a neighbour is the address in
      that neighbour's own manifest; these addresses are pairwise distinct and share the mask of the network. */
  lemma MonitoringAgrees(k: Key, spec: Spec, provider: ProviderSpec, resolve: Resolver, ports: Ports, a: nat, b: nat)
    requires spec.OverlaySpec? && spec.monitoring.Some?
    requires PlanSlice(k, spec, provider, resolve, ports).Success?
    requires var plan := PlanSlice(k, spec, provider, resolve, ports).value;
             a < |plan.names| && b < |plan.names|
    ensures var plan := PlanSlice(k, spec, provider, resolve, ports).value;
            var mine, theirs := plan.DeviceOf(plan.names[a]), plan.DeviceOf(plan.names[b]);
            && OwnAddress(mine).Some? && OwnAddress(theirs).Some?
            && OwnAddress(mine).value.prefix == OwnAddress(theirs).value.prefix
            && OwnAddress(mine).value.prefix == MonitoringCidr(spec.monitoring.value).prefix
            && (a != b ==> OwnAddress(mine).value.ip != OwnAddress(theirs).value.ip)
            && (forall i :: 0 <= i < |mine.neighbors| && mine.neighbors[i].node == plan.names[b] ==>
                  mine.neighbors[i].lpmIp == Some(OwnAddress(theirs).value.ip))
            && (AllProper(plan.links, plan.book) ==> forall i :: 0 <= i < |mine.neighbors| ==>
                  mine.neighbors[i].node in plan.names && mine.neighbors[i].node != plan.names[a])
  {
    var plan := PlanSlice(k, spec, provider, resolve, ports).value;
    var cidr := MonitoringCidr(spec.monitoring.value);
    AllocationIsInjective(cidr, plan.names);
    AllocationSucceedsExactly(cidr, plan.names);
    if a != b {
      DistinctApart(plan.names, a, b);
    }
    if AllProper(plan.links, plan.book) {
      NeighborsAreNamed(k, spec, provider, resolve, ports, a);
    }
  }

  /** The monitoring addresses are counted from the address of the network as the spec writes it; without one, they are
      10.0.0.1, 10.0.0.2, ... with 24 mask bits. */
  lemma MonitoringCounts(k: Key, spec: Spec, provider: ProviderSpec, resolve: Resolver, ports: Ports, i: nat)
    requires spec.OverlaySpec? && spec.monitoring.Some?
    requires PlanSlice(k, spec, provider, resolve, ports).Success? && i < |Targets(spec)|
    ensures var own := OwnAddress(PlanSlice(k, spec, provider, resolve, ports).value.DeviceOf(Targets(spec)[i]));
            match spec.monitoring.value.networkCidr
            case Some(cidr) =>
              cidr.V4? && own == Some(HostAddress((cidr.address + i + 1) % 0x1_0000_0000, cidr.prefix))
            case None => own.Some? && own.value.ip == 10 * 0x100_0000 + i + 1 && own.value.prefix == 24
  {
    OwnAddressCounts(k, spec, provider, resolve, ports, i);
    if spec.monitoring.value.networkCidr.None? {
      DefaultNetworkCounts(i, |Targets(spec)|);
    }
  }

  lemma OwnAddressCounts(k: Key, spec: Spec, provider: ProviderSpec, resolve: Resolver, ports: Ports, i: nat)
    requires spec.OverlaySpec? && spec.monitoring.Some?
    requires PlanSlice(k, spec, provider, resolve, ports).Success? && i < |Targets(spec)|
    ensures var cidr := MonitoringCidr(spec.monitoring.value);
            && cidr.V4? && |Targets(spec)| <= BlockSize(cidr.prefix) - 2
            && OwnAddress(PlanSlice(k, spec, provider, resolve, ports).value.DeviceOf(Targets(spec)[i]))
               == Some(HostAddress(Add32(cidr.address, i + 1), cidr.prefix))
  {
    var plan := PlanSlice(k, spec, provider, resolve, ports).value;
    var cidr := MonitoringCidr(spec.monitoring.value);
    AllocationSucceedsExactly(cidr, plan.names);
    AllocationIsInjective(cidr, plan.names);
    assert plan.addresses[plan.names[i]] == HostAddress(Add32(cidr.address, i + 1), cidr.prefix);
  }

  lemma DefaultNetworkCounts(i: nat, count: nat)
    requires i < count <= BlockSize(24) - 2
    ensures Add32(0x0A00_0000, i + 1) == 10 * 0x100_0000 + i + 1
  {
    BlockSizeOf24();
  }

  lemma BlockSizeOf24()
    ensures BlockSize(24) == 256
  {
    assert Pow2(4) == 16 && Pow2(8) == 16 * Pow2(4);
  }

  /** A slice is planned exactly when it has a topology, every cluster has an address, and monitoring addresses can be
      handed out where they are asked for. */
  lemma PlanSucceedsExactly(k: Key, spec: Spec, provider: ProviderSpec, resolve: Resolver, ports: Ports)
    requires spec.OverlaySpec?
    ensures PlanSlice(k, spec, provider, resolve, ports).Success? <==>
              && spec.topology.Some?
              && (forall i :: 0 <= i < |spec.topology.value.nodes| ==> Resolves(spec.topology.value.nodes[i], resolve))
              && (spec.monitoring.Some? ==> Allocate(MonitoringCidr(spec.monitoring.value), Targets(spec)).Success?)
  {
    if spec.topology.Some? {
      ResolutionFailsExactly(spec.topology.value.nodes, resolve, |spec.topology.value.nodes|);
    }
  }

  /** The first thing that is wrong is reported: the missing topology, then the first cluster without an address, then
      what is wrong with the monitoring addresses. */
  lemma PlanErrors(k: Key, spec: Spec, provider: ProviderSpec, resolve: Resolver, ports: Ports)
    requires spec.OverlaySpec? && PlanSlice(k, spec, provider, resolve, ports).Failure?
    ensures match PlanSlice(k, spec, provider, resolve, ports).error
            case NoTopology => spec.topology.None?
            case Unresolved(name) =>
              && spec.topology.Some?
              && var nodes := spec.topology.value.nodes;
                 exists i :: 0 <= i < |nodes| && nodes[i].name == name && !Resolves(nodes[i], resolve)
                   && forall j :: 0 <= j < i ==> Resolves(nodes[j], resolve)
            case NoAddresses(error) =>
              && spec.topology.Some? && spec.monitoring.Some?
              && (forall i :: 0 <= i < |spec.topology.value.nodes| ==>
                    Resolves(spec.topology.value.nodes[i], resolve))
              && Allocate(MonitoringCidr(spec.monitoring.value), Targets(spec)) == Failure(error)
  {
    if spec.topology.Some? {
      ResolutionFailsExactly(spec.topology.value.nodes, resolve, |spec.topology.value.nodes|);
    }
  }

  // ------------------------------------------------------------------ the devices

  /** Name, namespace and provider of a device; its monitor is the slice's own but for the address, and without
      monitoring there is none, nor any monitoring address of a neighbour. */
  lemma DeviceFields(k: Key, spec: Spec, provider: ProviderSpec, resolve: Resolver, ports: Ports, i: nat)
    requires spec.OverlaySpec?
    requires PlanSlice(k, spec, provider, resolve, ports).Success? && i < |Targets(spec)|
    ensures var m := PlanSlice(k, spec, provider, resolve, ports).value.DeviceOf(Targets(spec)[i]);
            && m.NetworkEdgeDevice?
            && m.name == provider.name + "-ned"
            && m.namespace == (if k.namespace != "" then k.namespace else "he-codeco-netma")
            && m.provider == Some(DeviceProvider(provider, ports))
            && match spec.monitoring
               case None => m.monitor == None && forall j :: 0 <= j < |m.neighbors| ==> m.neighbors[j].lpmIp == None
               case Some(monitoring) =>
                 && m.monitor.Some?
                 && m.monitor.value.networkCidr == monitoring.networkCidr
                 && m.monitor.value.metrics == monitoring.metrics
  {
    var plan := PlanSlice(k, spec, provider, resolve, ports).value;
    if spec.monitoring.Some? {
      AllocationIsInjective(MonitoringCidr(spec.monitoring.value), plan.names);
    }
  }

  /** How many of the neighbours have this name. */
  function Named(neighbors: seq<NeighborSpec>, node: string): nat {
    if neighbors == [] then 0 else (if neighbors[0].node == node then 1 else 0) + Named(neighbors[1..], node)
  }

  lemma {:induction false} NamedAsInTable(table: seq<Neighbor>, addresses: Allocation, monitored: bool, node: string)
    ensures Named(NeighborsOf(table, addresses, monitored), node) == Occurrences(table, node)
  {
    if table != [] {
      assert NeighborsOf(table, addresses, monitored)[1..] == NeighborsOf(table[1..], addresses, monitored);
      NamedAsInTable(table[1..], addresses, monitored, node);
    }
  }

  /** Every link joins two different clusters of the list. */
  predicate LinksFit(topology: OverlayTopology) {
    forall l <- topology.links ::
      && l.endpointA != l.endpointB
      && l.endpointA in ClusterNames(topology.nodes) && l.endpointB in ClusterNames(topology.nodes)
  }

  lemma LinksThatFitAreProper(k: Key, spec: Spec, provider: ProviderSpec, resolve: Resolver, ports: Ports)
    requires spec.OverlaySpec? && PlanSlice(k, spec, provider, resolve, ports).Success?
    requires spec.topology.value.links != [] && LinksFit(spec.topology.value)
    ensures var plan := PlanSlice(k, spec, provider, resolve, ports).value;
            plan.links == spec.topology.value.links && AllProper(plan.links, plan.book)
  {
    PlannedBookListsNames(k, spec, provider, resolve, ports);
  }

  /** The links that the spec gives are the ones that count: a device has each other cluster as a neighbour once for
      each link of the spec between the two, and no other neighbours. */
  lemma DevicesFollowLinks(k: Key, spec: Spec, provider: ProviderSpec, resolve: Resolver, ports: Ports, i: nat, j: nat)
    requires spec.OverlaySpec? && PlanSlice(k, spec, provider, resolve, ports).Success?
    requires spec.topology.value.links != [] && LinksFit(spec.topology.value)
    requires i < |Targets(spec)| && j < |Targets(spec)| && Targets(spec)[i] != Targets(spec)[j]
    ensures var names := Targets(spec);
            var neighbors := PlanSlice(k, spec, provider, resolve, ports).value.DeviceOf(names[i]).neighbors;
            && Named(neighbors, names[j]) == Between(spec.topology.value.links, names[i], names[j])
            && forall n <- neighbors :: n.node in names && n.node != names[i]
  {
    var plan := PlanSlice(k, spec, provider, resolve, ports).value;
    LinksThatFitAreProper(k, spec, provider, resolve, ports);
    TableCountsLinks(plan.names[i], plan.names[j], plan.links, plan.book);
    var table := Table(plan.names[i], plan.links, plan.book);
    NamedAsInTable(table, plan.addresses, plan.names[i] in plan.addresses, plan.names[j]);
    NeighborsAreNamed(k, spec, provider, resolve, ports, i);
  }

  /** The address a device has for a neighbour is the neighbour's gateway where the spec gives one, and otherwise what
      its name resolves to; of clusters with the same name the last one counts. A name that is not listed reads as
      empty. */
  lemma NeighborsHaveAddresses(k: Key, spec: Spec, provider: ProviderSpec, resolve: Resolver, ports: Ports,
                               i: nat, j: nat)
    requires spec.OverlaySpec? && PlanSlice(k, spec, provider, resolve, ports).Success?
    requires i < |Targets(spec)| && j < |Targets(spec)|
    requires forall l :: j < l < |Targets(spec)| ==> Targets(spec)[l] != Targets(spec)[j]
    ensures var neighbors := PlanSlice(k, spec, provider, resolve, ports).value.DeviceOf(Targets(spec)[i]).neighbors;
            forall n <- neighbors :: n.node == Targets(spec)[j] ==>
              (n.node == "" && n.domain == "") || HasAddress(spec.topology.value.nodes[j], resolve, n.domain)
  {
    var plan := PlanSlice(k, spec, provider, resolve, ports).value;
    var nodes := spec.topology.value.nodes;
    assert forall l :: 0 <= l < |nodes| ==> nodes[l].name == Targets(spec)[l];
    BookHoldsAddresses(nodes, resolve, |nodes|, j);
    EntriesAreOfBook(plan.names[i], plan.links, plan.book);
  }

  lemma MeshDevicesFromBook(k: Key, spec: Spec, provider: ProviderSpec, resolve: Resolver, ports: Ports, i: nat)
    requires spec.OverlaySpec? && PlanSlice(k, spec, provider, resolve, ports).Success?
    requires spec.topology.value.links == [] && Distinct(Targets(spec)) && i < |Targets(spec)|
    ensures var plan := PlanSlice(k, spec, provider, resolve, ports).value;
            var neighbors, others := plan.DeviceOf(plan.names[i]).neighbors, plan.names[..i] + plan.names[i + 1..];
            && |neighbors| == |others|
            && forall j :: 0 <= j < |others| ==>
                 others[j] in plan.book && neighbors[j].node == others[j] && neighbors[j].domain == plan.book[others[j]]
  {
    var plan := PlanSlice(k, spec, provider, resolve, ports).value;
    PlannedBookListsNames(k, spec, provider, resolve, ports);
    if |plan.names| == 1 {
      assert LinksFrom(plan.names, 1, 2) == [];
      assert plan.links == [] == Mesh(plan.names);
    }
    MeshTable(plan.names, i, plan.book);
  }

  /** With no links given and distinct names, the device of the i-th cluster has all other clusters as neighbours,
      in order, each with its own address. */
  lemma DefaultMeshDevices(k: Key, spec: Spec, provider: ProviderSpec, resolve: Resolver, ports: Ports, i: nat)
    requires spec.OverlaySpec? && PlanSlice(k, spec, provider, resolve, ports).Success?
    requires spec.topology.value.links == [] && Distinct(Targets(spec)) && i < |Targets(spec)|
    ensures var nodes := spec.topology.value.nodes;
            var neighbors := PlanSlice(k, spec, provider, resolve, ports).value.DeviceOf(Targets(spec)[i]).neighbors;
            && |neighbors| == |nodes| - 1
            && forall j :: 0 <= j < |nodes| - 1 ==>
                 var other := nodes[if j < i then j else j + 1];
                 neighbors[j].node == other.name && HasAddress(other, resolve, neighbors[j].domain)
  {
    var names := Targets(spec);
    var nodes := spec.topology.value.nodes;
    var plan := PlanSlice(k, spec, provider, resolve, ports).value;
    var neighbors := plan.DeviceOf(names[i]).neighbors;
    MeshDevicesFromBook(k, spec, provider, resolve, ports, i);
    forall j | 0 <= j < |nodes| - 1
      ensures var other := nodes[if j < i then j else j + 1];
              neighbors[j].node == other.name && HasAddress(other, resolve, neighbors[j].domain)
    {
      OthersAt(names, i, j);
      DistinctHaveAddresses(k, spec, provider, resolve, ports, if j < i then j else j + 1);
    }
  }

  lemma OthersAt(names: seq<string>, i: nat, j: nat)
    requires i < |names| && j < |names| - 1
    ensures (names[..i] + names[i + 1..])[j] == names[if j < i then j else j + 1]
  {
  }

  lemma DistinctHaveAddresses(k: Key, spec: Spec, provider: ProviderSpec, resolve: Resolver, ports: Ports, j: nat)
    requires spec.OverlaySpec? && PlanSlice(k, spec, provider, resolve, ports).Success?
    requires Distinct(Targets(spec)) && j < |Targets(spec)|
    ensures var book := PlanSlice(k, spec, provider, resolve, ports).value.book;
            Targets(spec)[j] in book && HasAddress(spec.topology.value.nodes[j], resolve, book[Targets(spec)[j]])
  {
    var nodes := spec.topology.value.nodes;
    forall l | j < l < |nodes|
      ensures nodes[l].name != nodes[j].name
    {
      DistinctApart(Targets(spec), j, l);
    }
    BookHoldsAddresses(nodes, resolve, |nodes|, j);
  }
}
