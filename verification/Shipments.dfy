/** What is in the clusters after a reconcile, told from the object, its provider and the cluster addresses alone. */
module Shipments {
  import opened Wrappers
  import opened Resources
  import opened Hub
  import opened Safety
  import opened Lifecycle
  import opened Progress
  import opened Devices
  import opened Neighbours
  import opened Topology
  import opened Slices
  import opened Providers
  import opened Client

  /** The stored work of `k` in the cluster holds exactly this manifest, under the label of the controller. */
  ghost predicate Ships(w: World, k: Key, cluster: string, m: Manifest) {
    var wk := WorkKey(cluster, WorkName(k));
    && wk in w.works
    && w.works[wk].content.labels == map["app" := "l2sm"]
    && w.works[wk].content.manifests == [m]
  }

  lemma SettledShips(w: World, w': World, k: Key, spec: Spec, plan: seq<Content>, i: nat, m: Manifest)
    requires |plan| == |Targets(spec)| && Settled(w, w', k, spec, plan)
    requires i < |plan| && plan[i] == Content(map["app" := "l2sm"], [m])
    ensures Ships(w', k, Targets(spec)[i], m)
  {
    assert WorkKey(Targets(spec)[i], WorkName(k)) in w'.works;
  }

  /** The state after a clean reconcile of the stored object, with the plan that its provider and addresses give. */
  function Reconciled(before: seq<Action>, k: Key, spec: Spec, profiles: Profiles, resolve: Resolver, ports: Ports)
    : World
    requires Plannable(k, spec, profiles, resolve, ports)
  {
    var w := Run(EMPTY_HUB, before);
    Run(w, CleanReconcile(w, k, PlanOf(k, spec, profiles, resolve, ports)))
  }

  // ------------------------------------------------------------------ networks

  /** The manifest of a network: its own name, its namespace and type or their defaults, and the provider. */
  lemma NetworkPlan(k: Key, spec: Spec, provider: ProviderSpec, i: nat)
    requires spec.NetworkSpec? && i < |Targets(spec)|
    ensures PlanNetwork(k, spec, provider)[i] ==
              Content(map["app" := "l2sm"],
                      [L2Network(k.name,
                                 if k.namespace != "" then k.namespace else "default",
                                 if spec.networkType != "" then spec.networkType else "vnet",
                                 Some(provider))])
  {
  }

  /** From any state that a run can reach, one clean reconcile of a live network leaves in each listed cluster exactly
      one manifest: the network under its own name, with its namespace and type or their defaults, and with the
      provider that it resolves to. */
  lemma NetworkIsShipped(before: seq<Action>, k: Key, o: Object, provider: ProviderSpec, profiles: Profiles,
                         resolve: Resolver, ports: Ports, i: nat)
    requires o.spec.NetworkSpec? && i < |o.spec.clusters|
    requires ResolveProvider(profiles, k.namespace, o.spec) == Success(provider)
    requires var w := Run(EMPTY_HUB, before);
             w.PhaseOf(k) == Idle && w.Current(k) == Some(o) && !o.deleting
    ensures Ships(Reconciled(before, k, o.spec, profiles, resolve, ports), k, o.spec.clusters[i],
                  L2Network(k.name,
                            if k.namespace != "" then k.namespace else "default",
                            if o.spec.networkType != "" then o.spec.networkType else "vnet",
                            Some(provider)))
  {
    var w := Run(EMPTY_HUB, before);
    var w' := Reconciled(before, k, o.spec, profiles, resolve, ports);
    ReconcileConverges(before, k, o, profiles, resolve, ports);
    NetworkPlan(k, o.spec, provider, i);
    SettledShips(w, w', k, o.spec, PlanNetwork(k, o.spec, provider), i,
                 L2Network(k.name,
                           if k.namespace != "" then k.namespace else "default",
                           if o.spec.networkType != "" then o.spec.networkType else "vnet",
                           Some(provider)));
  }

  // ------------------------------------------------------------------ overlays

  /** The device of the i-th cluster, as the spec, the provider and the addresses ask for it. */
  ghost predicate IsDeviceOf(m: Manifest, k: Key, spec: Spec, provider: ProviderSpec, resolve: Resolver, ports: Ports,
                             i: nat)
    requires spec.OverlaySpec? && spec.topology.Some? && i < |Targets(spec)|
  {
    var nodes, links := spec.topology.value.nodes, spec.topology.value.links;
    && m.NetworkEdgeDevice?
    && m.name == provider.name + "-ned"
    && m.namespace == (if k.namespace != "" then k.namespace else "he-codeco-netma")
    && m.provider == Some(DeviceProvider(provider, ports))
    && MonitorFits(m, spec.monitoring, i)
    && (links != [] && LinksFit(spec.topology.value) ==> NeighborsFit(m, spec, i))
    && (links == [] && Distinct(Targets(spec)) ==>
          && |m.neighbors| == |nodes| - 1
          && forall j :: 0 <= j < |nodes| - 1 ==>
               var other := nodes[if j < i then j else j + 1];
               m.neighbors[j].node == other.name && HasAddress(other, resolve, m.neighbors[j].domain))
  }

  /** The slice's own monitoring spec with the address of the i-th cluster, or none. */
  ghost predicate MonitorFits(m: Manifest, monitoring: Option<MonitorSpec>, i: nat)
    requires m.NetworkEdgeDevice?
  {
    match monitoring
    case None => m.monitor == None && forall j :: 0 <= j < |m.neighbors| ==> m.neighbors[j].lpmIp == None
    case Some(own) =>
      && m.monitor.Some?
      && m.monitor.value.networkCidr == own.networkCidr && m.monitor.value.metrics == own.metrics
      && match own.networkCidr
         case Some(cidr) =>
           && cidr.V4?
           && m.monitor.value.ipCidr == Some(HostAddress((cidr.address + i + 1) % 0x1_0000_0000, cidr.prefix))
         case None =>
           && m.monitor.value.ipCidr.Some?
           && m.monitor.value.ipCidr.value.ip == 10 * 0x100_0000 + i + 1 && m.monitor.value.ipCidr.value.prefix == 24
  }

  /** Each other cluster is a neighbour once for each link of the spec between the two, and nothing else is. */
  ghost predicate NeighborsFit(m: Manifest, spec: Spec, i: nat)
    requires m.NetworkEdgeDevice? && spec.OverlaySpec? && spec.topology.Some? && i < |Targets(spec)|
  {
    var names := Targets(spec);
    && (forall j :: 0 <= j < |names| && names[j] != names[i] ==>
          Named(m.neighbors, names[j]) == Between(spec.topology.value.links, names[i], names[j]))
    && forall n <- m.neighbors :: n.node in names && n.node != names[i]
  }

  lemma PlannedMonitorFits(k: Key, spec: Spec, provider: ProviderSpec, resolve: Resolver, ports: Ports, i: nat)
    requires spec.OverlaySpec?
    requires PlanSlice(k, spec, provider, resolve, ports).Success? && i < |Targets(spec)|
    ensures MonitorFits(PlanSlice(k, spec, provider, resolve, ports).value.DeviceOf(Targets(spec)[i]),
                        spec.monitoring, i)
  {
    DeviceFields(k, spec, provider, resolve, ports, i);
    if spec.monitoring.Some? {
      MonitoringCounts(k, spec, provider, resolve, ports, i);
    }
  }

  lemma PlannedNeighborsFit(k: Key, spec: Spec, provider: ProviderSpec, resolve: Resolver, ports: Ports, i: nat)
    requires spec.OverlaySpec?
    requires PlanSlice(k, spec, provider, resolve, ports).Success? && i < |Targets(spec)|
    requires spec.topology.value.links != [] && LinksFit(spec.topology.value)
    ensures NeighborsFit(PlanSlice(k, spec, provider, resolve, ports).value.DeviceOf(Targets(spec)[i]), spec, i)
  {
    var names := Targets(spec);
    var m := PlanSlice(k, spec, provider, resolve, ports).value.DeviceOf(names[i]);
    LinksThatFitAreProper(k, spec, provider, resolve, ports);
    NeighborsAreNamed(k, spec, provider, resolve, ports, i);
    forall j | 0 <= j < |names| && names[j] != names[i]
      ensures Named(m.neighbors, names[j]) == Between(spec.topology.value.links, names[i], names[j])
    {
      DevicesFollowLinks(k, spec, provider, resolve, ports, i, j);
    }
  }

  lemma PlannedDeviceFits(k: Key, spec: Spec, provider: ProviderSpec, resolve: Resolver, ports: Ports, i: nat)
    requires spec.OverlaySpec?
    requires PlanSlice(k, spec, provider, resolve, ports).Success? && i < |Targets(spec)|
    ensures IsDeviceOf(PlanSlice(k, spec, provider, resolve, ports).value.DeviceOf(Targets(spec)[i]),
                       k, spec, provider, resolve, ports, i)
  {
    DeviceFields(k, spec, provider, resolve, ports, i);
    PlannedMonitorFits(k, spec, provider, resolve, ports, i);
    if spec.topology.value.links != [] && LinksFit(spec.topology.value) {
      PlannedNeighborsFit(k, spec, provider, resolve, ports, i);
    }
    if spec.topology.value.links == [] && Distinct(Targets(spec)) {
      DefaultMeshDevices(k, spec, provider, resolve, ports, i);
    }
  }

  /** From any state that a run can reach, one clean reconcile of a live overlay that can be planned leaves in each
      listed cluster exactly one manifest: its device. */
  lemma SliceIsShipped(before: seq<Action>, k: Key, o: Object, provider: ProviderSpec, profiles: Profiles,
                       resolve: Resolver, ports: Ports, i: nat)
    requires o.spec.OverlaySpec? && i < |Targets(o.spec)|
    requires ResolveProvider(profiles, k.namespace, o.spec) == Success(provider)
    requires PlanSlice(k, o.spec, provider, resolve, ports).Success?
    requires var w := Run(EMPTY_HUB, before);
             w.PhaseOf(k) == Idle && w.Current(k) == Some(o) && !o.deleting
    ensures exists m ::
              && Ships(Reconciled(before, k, o.spec, profiles, resolve, ports), k, Targets(o.spec)[i], m)
              && IsDeviceOf(m, k, o.spec, provider, resolve, ports, i)
  {
    var w := Run(EMPTY_HUB, before);
    var w' := Reconciled(before, k, o.spec, profiles, resolve, ports);
    var slice := PlanSlice(k, o.spec, provider, resolve, ports).value;
    var m := slice.DeviceOf(Targets(o.spec)[i]);
    ReconcileConverges(before, k, o, profiles, resolve, ports);
    SettledShips(w, w', k, o.spec, slice.Contents(), i, m);
    PlannedDeviceFits(k, o.spec, provider, resolve, ports, i);
  }
}
