/**
 The custom resources the controller reads (SliceNetwork, SliceOverlay, ProviderProfile)
 and the manifests it ships inside ManifestWorks.

 A nil pointer is `None`. Addresses are numbers: the dotted text is not modelled.
 */
module Resources {
  import opened Wrappers

  const TWO_TO_THE_32: nat := 0x1_0000_0000

  type Address = a: nat | a < TWO_TO_THE_32 witness 0

  /** What parsing a CIDR text yields. A mapped address is written `::ffff:a.b.c.d/p`. */
  datatype CidrText =
    | Unparsable
    | V4(address: Address, prefix: nat)
    | V6(wide: nat, prefix: nat)
    | V4Mapped(address: Address, prefix: nat)
  {
    predicate WellFormed() {
      match this
      case Unparsable => true
      case V4(_, p) => p <= 32
      case V6(_, p) => p <= 128
      case V4Mapped(_, p) => p <= 128
    }
  }

  type Cidr = c: CidrText | c.WellFormed() witness Unparsable

  /** An address with the mask of the network it was handed out from. */
  datatype HostAddress = HostAddress(ip: Address, prefix: nat)

  datatype ProviderSpec = ProviderSpec(
    name: string, domain: seq<string>,
    ofPort: string, sdnPort: string, dnsPort: string, dnsGrpcPort: string)

  datatype ProviderReference = ProviderReference(name: string, namespace: string)

  datatype MonitorSpec = MonitorSpec(networkCidr: Option<Cidr>, ipCidr: Option<HostAddress>, metrics: string)

  datatype Link = Link(endpointA: string, endpointB: string)

  /** A node of an overlay; an absent gateway and an empty gateway address are both `None`. */
  datatype OverlayCluster = OverlayCluster(name: string, gateway: Option<string>)

  datatype OverlayTopology = OverlayTopology(nodes: seq<OverlayCluster>, links: seq<Link>)

  datatype Spec =
    | NetworkSpec(clusters: seq<string>, networkType: string,
                  provider: Option<ProviderSpec>, providerRef: Option<ProviderReference>)
    | OverlaySpec(topology: Option<OverlayTopology>, monitoring: Option<MonitorSpec>,
                  provider: Option<ProviderSpec>, providerRef: Option<ProviderReference>)

  datatype Kind = SliceNetwork | SliceOverlay

  datatype Key = Key(kind: Kind, namespace: string, name: string)

  datatype Neighbor = Neighbor(node: string, domain: string)

  datatype NeighborSpec = NeighborSpec(node: string, domain: string, lpmIp: Option<Address>)

  datatype Manifest =
    | L2Network(name: string, namespace: string, networkType: string, provider: Option<ProviderSpec>)
    | NetworkEdgeDevice(name: string, namespace: string, provider: Option<ProviderSpec>,
                        neighbors: seq<NeighborSpec>, monitor: Option<MonitorSpec>)

  /** The part of a ManifestWork that the controller decides: its labels and its spec. */
  datatype Content = Content(labels: map<string, string>, manifests: seq<Manifest>)

  /** The address of a managed cluster by its name, where it resolves. */
  type Resolver = string -> Option<string>

  function ClusterNames(clusters: seq<OverlayCluster>): (names: seq<string>)
    ensures |names| == |clusters|
    ensures forall i :: 0 <= i < |clusters| ==> names[i] == clusters[i].name
  {
    seq(|clusters|, i requires 0 <= i < |clusters| => clusters[i].name)
  }

  /** The clusters in which an object with this spec is materialised, in the order of the spec. */
  function Targets(spec: Spec): seq<string> {
    match spec
    case NetworkSpec(clusters, _, _, _) => clusters
    case OverlaySpec(None, _, _, _) => []
    case OverlaySpec(Some(topology), _, _, _) => ClusterNames(topology.nodes)
  }

  function DefaultIfEmpty(val: string, def: string): string {
    if val == "" then def else val
  }

  predicate Distinct(names: seq<string>) {
    forall i {:trigger names[..i]} :: 0 <= i < |names| ==> names[i] !in names[..i]
  }

  lemma DistinctApart(names: seq<string>, i: nat, j: nat)
    requires Distinct(names) && i < |names| && j < |names| && i != j
    ensures names[i] != names[j]
  {
    if i < j {
      assert names[j] !in names[..j] && names[..j][i] == names[i];
    } else {
      assert names[i] !in names[..i] && names[..i][j] == names[j];
    }
  }

  lemma ApartIsDistinct(names: seq<string>)
    requires forall i, j :: 0 <= i < j < |names| ==> names[i] != names[j]
    ensures Distinct(names)
  {
  }
}
