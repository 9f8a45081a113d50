/** Network edge devices: what one cluster is told about its neighbours (NEDGenerator). */
module Devices {
  import opened Wrappers
  import opened Resources

  /** The port numbers to fall back on, as the environment gives them. */
  datatype Ports = Ports(sdn: string, dnsGrpc: string, dns: string, of: string)

  /** The provider that a device is given: the first domain, and no empty port. */
  function DeviceProvider(provider: ProviderSpec, ports: Ports): ProviderSpec {
    ProviderSpec(
      provider.name,
      [if provider.domain == [] then "" else provider.domain[0]],
      DefaultIfEmpty(provider.ofPort, ports.of),
      DefaultIfEmpty(provider.sdnPort, ports.sdn),
      DefaultIfEmpty(provider.dnsPort, ports.dns),
      DefaultIfEmpty(provider.dnsGrpcPort, ports.dnsGrpc))
  }

  /** A neighbour as the device sees it; its monitoring address is known when both sides have one. */
  function NeighborOf(n: Neighbor, addresses: map<string, HostAddress>, monitored: bool): NeighborSpec {
    NeighborSpec(n.node, n.domain, if monitored && n.node in addresses then Some(addresses[n.node].ip) else None)
  }

  function NeighborsOf(table: seq<Neighbor>, addresses: map<string, HostAddress>, monitored: bool)
    : (specs: seq<NeighborSpec>)
    ensures |specs| == |table|
    ensures forall i :: 0 <= i < |table| ==> specs[i] == NeighborOf(table[i], addresses, monitored)
  {
    seq(|table|, i requires 0 <= i < |table| => NeighborOf(table[i], addresses, monitored))
  }

  /** The manifest of the device of a cluster. */
  function DeviceManifest(provider: ProviderSpec, monitoring: Option<MonitorSpec>, table: seq<Neighbor>,
                          addresses: map<string, HostAddress>, cluster: string, namespace: string): Manifest
    requires cluster in addresses ==> monitoring.Some?
  {
    var monitored := cluster in addresses;
    NetworkEdgeDevice(
      provider.name + "-ned", namespace, Some(provider),
      NeighborsOf(table, addresses, monitored),
      if monitored then Some(monitoring.value.(ipCidr := Some(addresses[cluster]))) else None)
  }

  /** Each port is the one of the spec, or its own fallback when the spec has none; the name and the first domain are
      those of the spec. */
  lemma DeviceProviderFields(provider: ProviderSpec, ports: Ports)
    ensures var p := DeviceProvider(provider, ports);
            && p.name == provider.name
            && p.domain == (if |provider.domain| > 0 then [provider.domain[0]] else [""])
            && (provider.ofPort != "" ==> p.ofPort == provider.ofPort)
            && (provider.sdnPort != "" ==> p.sdnPort == provider.sdnPort)
            && (provider.dnsPort != "" ==> p.dnsPort == provider.dnsPort)
            && (provider.dnsGrpcPort != "" ==> p.dnsGrpcPort == provider.dnsGrpcPort)
            && (provider.ofPort == "" ==> p.ofPort == ports.of)
            && (provider.sdnPort == "" ==> p.sdnPort == ports.sdn)
            && (provider.dnsPort == "" ==> p.dnsPort == ports.dns)
            && (provider.dnsGrpcPort == "" ==> p.dnsGrpcPort == ports.dnsGrpc)
  {
  }

  // ------------------------------------------------------------------ objects

  class Monitor {
    var networkCidr: Option<Cidr>
    var ipCidr: Option<HostAddress>
    var metrics: string

    function Value(): MonitorSpec
      reads this
    {
      MonitorSpec(networkCidr, ipCidr, metrics)
    }

    constructor (spec: MonitorSpec)
      ensures Value() == spec
    {
      networkCidr, ipCidr, metrics := spec.networkCidr, spec.ipCidr, spec.metrics;
    }

    method DeepCopy() returns (copy: Monitor)
      ensures fresh(copy) && copy.Value() == Value()
    {
      copy := new Monitor(Value());
    }
  }

  class Device {
    var name: string
    var namespace: string
    var provider: ProviderSpec
    var neighbors: array<NeighborSpec>
    var monitor: Monitor?

    constructor (name: string, provider: ProviderSpec, neighbors: array<NeighborSpec>)
      ensures this.name == name && this.provider == provider && this.neighbors == neighbors
      ensures namespace == "" && monitor == null
    {
      this.name, this.namespace, this.provider, this.neighbors, this.monitor := name, "", provider, neighbors, null;
    }

    /** The manifest that is shipped for the device. */
    function ToManifest(): Manifest
      reads this, neighbors, monitor
    {
      NetworkEdgeDevice(name, namespace, Some(provider), neighbors[..],
                        if monitor == null then None else Some(monitor.Value()))
    }
  }

  class NedGenerator {
    const sliceName: string
    const provider: ProviderSpec
    var monitoring: Monitor?

    constructor (sdnController: ProviderSpec, ports: Ports)
      ensures monitoring == null
      ensures provider == DeviceProvider(sdnController, ports) && sliceName == provider.name
    {
      var sdnPort, dnsPort := sdnController.sdnPort, sdnController.dnsPort;
      var ofPort, dnsGrpcPort := sdnController.ofPort, sdnController.dnsGrpcPort;
      if sdnPort == "" {
        sdnPort := ports.sdn;
      }
      if dnsGrpcPort == "" {
        dnsGrpcPort := ports.dnsGrpc;
      }
      if dnsPort == "" {
        dnsPort := ports.dns;
      }
      if ofPort == "" {
        ofPort := ports.of;
      }
      sliceName := sdnController.name;
      provider := ProviderSpec(sdnController.name, [if sdnController.domain == [] then "" else sdnController.domain[0]],
                               ofPort, sdnPort, dnsPort, dnsGrpcPort);
      monitoring := null;
    }

    /** A device of its own: fresh neighbours, and a fresh copy of the monitoring spec that only it can write.
        A monitored cluster needs a monitoring spec: the copy of a missing one could not be written. */
    method ConstructNed(cluster: string, table: seq<Neighbor>, addresses: map<string, HostAddress>)
      returns (ned: Device)
      requires cluster in addresses ==> monitoring != null
      ensures fresh(ned) && fresh(ned.neighbors) && (ned.monitor != null ==> fresh(ned.monitor))
      ensures ned.monitor != null <==> cluster in addresses
      ensures sliceName == provider.name ==>
        ned.ToManifest() == DeviceManifest(provider, if monitoring == null then None else Some(monitoring.Value()),
                                           table, addresses, cluster, "")
    {
      var monitored := cluster in addresses;
      var neighbors := new NeighborSpec[|table|](_ => NeighborSpec("", "", None));
      for i := 0 to |table|
        invariant neighbors[..i] == NeighborsOf(table, addresses, monitored)[..i]
      {
        neighbors[i] := neighbors[i].(node := table[i].node);
        neighbors[i] := neighbors[i].(domain := table[i].domain, lpmIp := None);
        if monitored {
          if neighbors[i].node in addresses {
            neighbors[i] := neighbors[i].(lpmIp := Some(addresses[neighbors[i].node].ip));
          }
        }
        assert neighbors[..i + 1] == neighbors[..i] + [neighbors[i]];
      }
      ned := new Device(sliceName + "-ned", provider, neighbors);
      if monitored {
        var copy := monitoring.DeepCopy();
        ned.monitor := copy;
        ned.monitor.ipCidr := Some(addresses[cluster]);
      }
    }
  }
}
