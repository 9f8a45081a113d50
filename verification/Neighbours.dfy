/** From the links of a slice to the neighbour table of each cluster (the loops of ApplySlice). */
module Neighbours {
  import opened Wrappers
  import opened Resources
  import opened Topology

  type AddressBook = map<string, string>

  // ------------------------------------------------------------------ addresses

  /** The addresses of the first `n` clusters, or the first one that does not resolve. A gateway address wins over
      resolution. */
  function AddressesUpTo(clusters: seq<OverlayCluster>, resolve: Resolver, n: nat): Result<AddressBook, string>
    requires n <= |clusters|
  {
    if n == 0 then Success(map[])
    else match AddressesUpTo(clusters, resolve, n - 1)
      case Failure(name) => Failure(name)
      case Success(book) =>
        var c := clusters[n - 1];
        var address := if c.gateway.Some? then c.gateway else resolve(c.name);
        if address.None? then Failure(c.name) else Success(book[c.name := address.value])
  }

  function Addresses(clusters: seq<OverlayCluster>, resolve: Resolver): Result<AddressBook, string> {
    AddressesUpTo(clusters, resolve, |clusters|)
  }

  method ResolveAddresses(clusters: seq<OverlayCluster>, resolve: Resolver) returns (r: Result<AddressBook, string>)
    ensures r == Addresses(clusters, resolve)
  {
    var clusterMaps: AddressBook := map[];
    for i := 0 to |clusters|
      invariant AddressesUpTo(clusters, resolve, i) == Success(clusterMaps)
    {
      var cluster := clusters[i];
      var resolvedIp := cluster.gateway;
      if resolvedIp.None? {
        resolvedIp := resolve(cluster.name);
        if resolvedIp.None? {
          FailureStays(clusters, resolve, i + 1, |clusters|);
          return Failure(cluster.name);
        }
      }
      clusterMaps := clusterMaps[cluster.name := resolvedIp.value];
    }
    return Success(clusterMaps);
  }

  lemma {:induction false} FailureStays(clusters: seq<OverlayCluster>, resolve: Resolver, i: nat, n: nat)
    requires i <= n <= |clusters| && AddressesUpTo(clusters, resolve, i).Failure?
    ensures AddressesUpTo(clusters, resolve, n) == AddressesUpTo(clusters, resolve, i)
  {
    if i < n {
      FailureStays(clusters, resolve, i, n - 1);
    }
  }

  lemma {:induction false} BookListsClusters(clusters: seq<OverlayCluster>, resolve: Resolver, n: nat)
    requires n <= |clusters| && AddressesUpTo(clusters, resolve, n).Success?
    ensures forall name :: name in AddressesUpTo(clusters, resolve, n).value <==> name in ClusterNames(clusters)[..n]
  {
    if n > 0 {
      BookListsClusters(clusters, resolve, n - 1);
      assert ClusterNames(clusters)[..n] == ClusterNames(clusters)[..n - 1] + [clusters[n - 1].name];
    }
  }

  /** The address of a cluster: its gateway's when it has one, and otherwise what its name resolves to. */
  predicate HasAddress(c: OverlayCluster, resolve: Resolver, address: string) {
    match c.gateway
    case Some(gatewayAddress) => address == gatewayAddress
    case None => resolve(c.name) == Some(address)
  }

  predicate Resolves(c: OverlayCluster, resolve: Resolver) {
    c.gateway.Some? || resolve(c.name).Some?
  }

  /** The book holds, for each name, the address of the last cluster of that name. */
  lemma {:induction false} BookHoldsAddresses(clusters: seq<OverlayCluster>, resolve: Resolver, n: nat, i: nat)
    requires i < n <= |clusters| && AddressesUpTo(clusters, resolve, n).Success?
    requires forall j :: i < j < n ==> clusters[j].name != clusters[i].name
    ensures var book := AddressesUpTo(clusters, resolve, n).value;
            clusters[i].name in book && HasAddress(clusters[i], resolve, book[clusters[i].name])
  {
    if i < n - 1 {
      BookHoldsAddresses(clusters, resolve, n - 1, i);
    }
  }

  /** There is a book exactly when every cluster has an address; otherwise the first cluster without one is named. */
  lemma {:induction false} ResolutionFailsExactly(clusters: seq<OverlayCluster>, resolve: Resolver, n: nat)
    requires n <= |clusters|
    ensures AddressesUpTo(clusters, resolve, n).Success? <==> forall i :: 0 <= i < n ==> Resolves(clusters[i], resolve)
    ensures AddressesUpTo(clusters, resolve, n).Failure? ==>
              exists i :: 0 <= i < n && clusters[i].name == AddressesUpTo(clusters, resolve, n).error
                && !Resolves(clusters[i], resolve) && forall j :: 0 <= j < i ==> Resolves(clusters[j], resolve)
  {
    if n > 0 {
      ResolutionFailsExactly(clusters, resolve, n - 1);
      if AddressesUpTo(clusters, resolve, n - 1).Success? && !Resolves(clusters[n - 1], resolve) {
        assert clusters[n - 1].name == AddressesUpTo(clusters, resolve, n).error;
      }
    }
  }

  // ------------------------------------------------------------------ tables

  /** The other end of the link, seen from a cluster; the first endpoint is compared first. */
  function OtherEnd(cluster: string, l: Link): Option<string> {
    if cluster == l.endpointA then Some(l.endpointB)
    else if cluster == l.endpointB then Some(l.endpointA)
    else None
  }

  /** An end that is not a listed cluster reads as an empty entry. */
  function Entry(book: AddressBook, name: string): Neighbor {
    if name in book then Neighbor(name, book[name]) else Neighbor("", "")
  }

  /** What a link adds to the table of a cluster. */
  function EntriesFor(cluster: string, l: Link, book: AddressBook): seq<Neighbor> {
    match OtherEnd(cluster, l)
    case Some(name) => [Entry(book, name)]
    case None => []
  }

  function Table(cluster: string, links: seq<Link>, book: AddressBook): seq<Neighbor> {
    if links == [] then [] else EntriesFor(cluster, links[0], book) + Table(cluster, links[1..], book)
  }

  /** One link of the loop. */
  lemma TableStep(table: seq<Neighbor>, longer: seq<Neighbor>, cluster: string, links: seq<Link>, book: AddressBook,
                  i: nat)
    requires i < |links| && longer == table + EntriesFor(cluster, links[i], book)
    ensures table + Table(cluster, links[i..], book) == longer + Table(cluster, links[i + 1..], book)
  {
    var entries, rest := EntriesFor(cluster, links[i], book), Table(cluster, links[i + 1..], book);
    assert links[i..][1..] == links[i + 1..];
    assert Table(cluster, links[i..], book) == entries + rest;
  }

  method BuildTable(cluster: string, links: seq<Link>, book: AddressBook) returns (table: seq<Neighbor>)
    ensures table == Table(cluster, links, book)
  {
    table := [];
    for i := 0 to |links|
      invariant table + Table(cluster, links[i..], book) == Table(cluster, links, book)
    {
      var link := links[i];
      ghost var before := table;
      if cluster == link.endpointA {
        table := table + [Entry(book, link.endpointB)];
      } else if cluster == link.endpointB {
        table := table + [Entry(book, link.endpointA)];
      }
      TableStep(before, table, cluster, links, book, i);
    }
    assert links[|links|..] == [];
  }

  lemma Associates(a: seq<Neighbor>, b: seq<Neighbor>, c: seq<Neighbor>)
    ensures a + (b + c) == a + b + c
  {
  }

  /** The table follows the links in their order: the table for longer links is put together from those of the parts. */
  lemma {:induction false} TableInOrder(cluster: string, a: seq<Link>, b: seq<Link>, book: AddressBook)
    ensures Table(cluster, a + b, book) == Table(cluster, a, book) + Table(cluster, b, book)
  {
    if a == [] {
      assert a + b == b;
    } else {
      TableInOrder(cluster, a[1..], b, book);
      assert (a + b)[0] == a[0] && (a + b)[1..] == a[1..] + b;
      Associates(EntriesFor(cluster, a[0], book), Table(cluster, a[1..], book), Table(cluster, b, book));
    }
  }

  /** One link gives at most one entry: for the end that is not the cluster's, or an empty one when that end is not
      listed. */
  lemma TableOfOne(cluster: string, l: Link, book: AddressBook)
    ensures cluster == l.endpointA && l.endpointB in book ==>
              Table(cluster, [l], book) == [Neighbor(l.endpointB, book[l.endpointB])]
    ensures cluster == l.endpointA && l.endpointB !in book ==> Table(cluster, [l], book) == [Neighbor("", "")]
    ensures cluster == l.endpointB && cluster != l.endpointA && l.endpointA in book ==>
              Table(cluster, [l], book) == [Neighbor(l.endpointA, book[l.endpointA])]
    ensures cluster == l.endpointB && cluster != l.endpointA && l.endpointA !in book ==>
              Table(cluster, [l], book) == [Neighbor("", "")]
    ensures cluster != l.endpointA && cluster != l.endpointB ==> Table(cluster, [l], book) == []
  {
    assert [l][1..] == [];
    assert EntriesFor(cluster, l, book) + [] == EntriesFor(cluster, l, book);
  }

  // ------------------------------------------------------------------ links are conserved

  function Occurrences(table: seq<Neighbor>, node: string): nat {
    if table == [] then 0
    else (if table[0].node == node then 1 else 0) + Occurrences(table[1..], node)
  }

  lemma {:induction false} OccurrencesAdd(a: seq<Neighbor>, b: seq<Neighbor>, node: string)
    ensures Occurrences(a + b, node) == Occurrences(a, node) + Occurrences(b, node)
  {
    if a == [] {
      assert a + b == b;
    } else {
      assert (a + b)[1..] == a[1..] + b;
      OccurrencesAdd(a[1..], b, node);
    }
  }

  /** A link that joins two distinct listed clusters. */
  predicate Proper(l: Link, book: AddressBook) {
    l.endpointA in book && l.endpointB in book && l.endpointA != l.endpointB
  }

  predicate AllProper(links: seq<Link>, book: AddressBook) {
    forall i :: 0 <= i < |links| ==> Proper(links[i], book)
  }

  /** A listed cluster is in another one's table once for each link between the two. */
  lemma {:induction false} TableCountsLinks(a: string, b: string, links: seq<Link>, book: AddressBook)
    requires a != b && AllProper(links, book)
    ensures Occurrences(Table(a, links, book), b) == Between(links, a, b)
  {
    if links != [] {
      TableCountsLinks(a, b, links[1..], book);
      var head := EntriesFor(a, links[0], book);
      assert Proper(links[0], book);
      assert Occurrences(head, b) == if Joins(links[0], a, b) then 1 else 0;
      OccurrencesAdd(head, Table(a, links[1..], book), b);
    }
  }

  /** Neighbourhood is mutual: b is in a's table as often as a is in b's, and that is the number of links between
      them. */
  lemma NeighboursAreMutual(a: string, b: string, links: seq<Link>, book: AddressBook)
    requires a != b && AllProper(links, book)
    ensures Occurrences(Table(a, links, book), b) == Occurrences(Table(b, links, book), a) == Between(links, a, b)
  {
    TableCountsLinks(a, b, links, book);
    TableCountsLinks(b, a, links, book);
    BetweenIsSymmetric(links, a, b);
  }

  /** Every entry is another listed cluster with that cluster's own address. */
  lemma {:induction false} EntriesAreListed(cluster: string, links: seq<Link>, book: AddressBook)
    requires AllProper(links, book)
    ensures forall e :: e in Table(cluster, links, book) ==>
              e.node in book && e.node != cluster && e.domain == book[e.node]
  {
    if links != [] {
      assert Proper(links[0], book);
      EntriesAreListed(cluster, links[1..], book);
    }
  }

  /** Whatever the links, an entry with a name has the address that the book has for it. */
  lemma {:induction false} EntriesAreOfBook(cluster: string, links: seq<Link>, book: AddressBook)
    ensures forall e <- Table(cluster, links, book) ::
              e == Neighbor("", "") || (e.node in book && e.domain == book[e.node])
  {
    if links != [] {
      EntriesAreOfBook(cluster, links[1..], book);
    }
  }

  /** The entries of all tables together. */
  function TotalEntries(nodes: seq<string>, links: seq<Link>, book: AddressBook): nat {
    if nodes == [] then 0 else |Table(nodes[0], links, book)| + TotalEntries(nodes[1..], links, book)
  }

  /** How many of the nodes see the link. */
  function Ends(nodes: seq<string>, l: Link): nat {
    (if l.endpointA in nodes then 1 else 0) + (if l.endpointB in nodes && l.endpointB != l.endpointA then 1 else 0)
  }

  function TotalEnds(nodes: seq<string>, links: seq<Link>): nat {
    if links == [] then 0 else Ends(nodes, links[0]) + TotalEnds(nodes, links[1..])
  }

  lemma EndsOfMore(nodes: seq<string>, l: Link)
    requires nodes != [] && nodes[0] !in nodes[1..]
    ensures Ends(nodes, l) == (if OtherEnd(nodes[0], l).Some? then 1 else 0) + Ends(nodes[1..], l)
  {
    assert nodes == [nodes[0]] + nodes[1..];
  }

  lemma {:induction false} EndsOfFirst(nodes: seq<string>, links: seq<Link>, book: AddressBook)
    requires nodes != [] && nodes[0] !in nodes[1..]
    ensures TotalEnds(nodes, links) == |Table(nodes[0], links, book)| + TotalEnds(nodes[1..], links)
  {
    if links != [] {
      EndsOfMore(nodes, links[0]);
      EndsOfFirst(nodes, links[1..], book);
    }
  }

  lemma {:induction false} EndsOfNone(links: seq<Link>)
    ensures TotalEnds([], links) == 0
  {
    if links != [] {
      EndsOfNone(links[1..]);
    }
  }

  lemma DistinctTail(nodes: seq<string>)
    requires Distinct(nodes) && nodes != []
    ensures Distinct(nodes[1..]) && nodes[0] !in nodes[1..]
  {
    forall i, j | 0 <= i < j < |nodes| - 1
      ensures nodes[1..][i] != nodes[1..][j]
    {
      DistinctApart(nodes, i + 1, j + 1);
    }
    ApartIsDistinct(nodes[1..]);
    forall i | 0 <= i < |nodes| - 1
      ensures nodes[1..][i] != nodes[0]
    {
      DistinctApart(nodes, 0, i + 1);
    }
  }

  /** With distinct names, a link takes one entry for each listed end; a self-link has one end. */
  lemma {:induction false} TablesHoldEnds(nodes: seq<string>, links: seq<Link>, book: AddressBook)
    requires Distinct(nodes)
    ensures TotalEntries(nodes, links, book) == TotalEnds(nodes, links)
  {
    if nodes == [] {
      EndsOfNone(links);
    } else {
      DistinctTail(nodes);
      EndsOfFirst(nodes, links, book);
      TablesHoldEnds(nodes[1..], links, book);
    }
  }

  lemma {:induction false} EndsAtMostTwo(nodes: seq<string>, links: seq<Link>, book: AddressBook)
    requires forall name :: name in book <==> name in nodes
    ensures TotalEnds(nodes, links) <= 2 * |links|
    ensures TotalEnds(nodes, links) == 2 * |links| <==> AllProper(links, book)
  {
    if links != [] {
      EndsAtMostTwo(nodes, links[1..], book);
      assert Ends(nodes, links[0]) == 2 <==> Proper(links[0], book);
      assert AllProper(links, book) <==> Proper(links[0], book) && AllProper(links[1..], book) by {
        if AllProper(links, book) {
          assert forall i :: 0 <= i < |links| - 1 ==> links[1..][i] == links[i + 1];
        }
        if Proper(links[0], book) && AllProper(links[1..], book) {
          forall i | 0 <= i < |links|
            ensures Proper(links[i], book)
          {
            assert i > 0 ==> links[i] == links[1..][i - 1];
          }
        }
      }
    }
  }

  /** All tables together have two entries for each link exactly when every link joins two distinct listed clusters. */
  lemma TwoEntriesPerLink(nodes: seq<string>, links: seq<Link>, book: AddressBook)
    requires Distinct(nodes) && forall name :: name in book <==> name in nodes
    ensures TotalEntries(nodes, links, book) == 2 * |links| <==> AllProper(links, book)
  {
    TablesHoldEnds(nodes, links, book);
    EndsAtMostTwo(nodes, links, book);
  }

  // ------------------------------------------------------------------ the default mesh

  /** The entries for the nodes lo, ..., hi - 1 without the k-th. */
  function EntriesOf(nodes: seq<string>, lo: nat, hi: nat, k: nat, book: AddressBook): seq<Neighbor>
    requires hi <= |nodes|
    decreases hi - lo
  {
    if lo >= hi then []
    else (if lo == k then [] else [Entry(book, nodes[lo])]) + EntriesOf(nodes, lo + 1, hi, k, book)
  }

  /** What the k-th cluster still gets from the links that the double loop makes from (i, j) on. */
  function StillToCome(nodes: seq<string>, i: nat, j: nat, k: nat, book: AddressBook): seq<Neighbor>
    requires i < j && k < |nodes|
  {
    if i < k then (if j <= k then [Entry(book, nodes[i])] else []) + EntriesOf(nodes, i + 1, |nodes|, k, book)
    else if i == k then EntriesOf(nodes, j, |nodes|, k, book)
    else []
  }

  lemma EndOfMeshLink(nodes: seq<string>, i: nat, j: nat, k: nat)
    requires i < j < |nodes| && k < |nodes| && Distinct(nodes)
    ensures OtherEnd(nodes[k], Link(nodes[i], nodes[j])) ==
            if i == k then Some(nodes[j]) else if j == k then Some(nodes[i]) else None
  {
    if i != k {
      DistinctApart(nodes, i, k);
    }
    if j != k {
      DistinctApart(nodes, j, k);
    }
  }

  /** One link of the double loop: it adds what is missing between two stages. */
  lemma MeshLink(nodes: seq<string>, i: nat, j: nat, k: nat, book: AddressBook)
    requires i < j < |nodes| && k < |nodes| && Distinct(nodes)
    ensures StillToCome(nodes, i, j, k, book) ==
            EntriesFor(nodes[k], Link(nodes[i], nodes[j]), book) + StillToCome(nodes, i, j + 1, k, book)
  {
    EndOfMeshLink(nodes, i, j, k);
  }

  lemma MeshTableStep(nodes: seq<string>, i: nat, j: nat, cluster: string, book: AddressBook)
    requires i < j < |nodes|
    ensures Table(cluster, LinksFrom(nodes, i, j), book) ==
            EntriesFor(cluster, Link(nodes[i], nodes[j]), book) + Table(cluster, LinksFrom(nodes, i, j + 1), book)
  {
    assert LinksFrom(nodes, i, j)[1..] == LinksFrom(nodes, i, j + 1);
  }

  ghost predicate MeshHolds(nodes: seq<string>, i: nat, j: nat, k: nat, book: AddressBook)
    requires i < j && k < |nodes|
  {
    Table(nodes[k], LinksFrom(nodes, i, j), book) == StillToCome(nodes, i, j, k, book)
  }

  lemma MeshDone(nodes: seq<string>, i: nat, j: nat, k: nat, book: AddressBook)
    requires |nodes| <= i < j && k < |nodes|
    ensures MeshHolds(nodes, i, j, k, book)
  {
  }

  lemma MeshRowEnd(nodes: seq<string>, i: nat, j: nat, k: nat, book: AddressBook)
    requires i < |nodes| <= j && k < |nodes| && MeshHolds(nodes, i + 1, i + 2, k, book)
    ensures MeshHolds(nodes, i, j, k, book)
  {
    assert LinksFrom(nodes, i, j) == LinksFrom(nodes, i + 1, i + 2);
    assert StillToCome(nodes, i, j, k, book) == StillToCome(nodes, i + 1, i + 2, k, book);
  }

  lemma MeshStep(nodes: seq<string>, i: nat, j: nat, k: nat, book: AddressBook)
    requires i < j < |nodes| && k < |nodes| && Distinct(nodes) && MeshHolds(nodes, i, j + 1, k, book)
    ensures MeshHolds(nodes, i, j, k, book)
  {
    MeshTableStep(nodes, i, j, nodes[k], book);
    MeshLink(nodes, i, j, k, book);
  }

  lemma {:induction false} MeshRow(nodes: seq<string>, i: nat, j: nat, k: nat, book: AddressBook)
    requires i < |nodes| && i < j <= |nodes| && k < |nodes| && Distinct(nodes)
    requires MeshHolds(nodes, i + 1, i + 2, k, book)
    ensures MeshHolds(nodes, i, j, k, book)
    decreases |nodes| - j
  {
    if j == |nodes| {
      MeshRowEnd(nodes, i, j, k, book);
    } else {
      MeshRow(nodes, i, j + 1, k, book);
      MeshStep(nodes, i, j, k, book);
    }
  }

  lemma {:induction false} MeshRows(nodes: seq<string>, i: nat, k: nat, book: AddressBook)
    requires i <= |nodes| && k < |nodes| && Distinct(nodes)
    ensures MeshHolds(nodes, i, i + 1, k, book)
    decreases |nodes| - i
  {
    if i == |nodes| {
      MeshDone(nodes, i, i + 1, k, book);
    } else {
      MeshRows(nodes, i + 1, k, book);
      MeshRow(nodes, i, i + 1, k, book);
    }
  }

  /** With the default mesh, the table of the k-th cluster is the node list without its k-th, in the original order. */
  lemma MeshTable(nodes: seq<string>, k: nat, book: AddressBook)
    requires k < |nodes| && Distinct(nodes) && forall name :: name in nodes ==> name in book
    ensures var table, others := Table(nodes[k], Mesh(nodes), book), nodes[..k] + nodes[k + 1..];
            |table| == |others| && forall i :: 0 <= i < |table| ==> table[i] == Neighbor(others[i], book[others[i]])
  {
    MeshRows(nodes, 0, k, book);
    EntriesInOrder(nodes, 0, k, book);
    if k > 0 {
      assert StillToCome(nodes, 0, 1, k, book) == [Entry(book, nodes[0])] + EntriesOf(nodes, 1, |nodes|, k, book);
    }
    assert EntriesOf(nodes, 0, |nodes|, k, book) == Table(nodes[k], Mesh(nodes), book);
    assert forall i :: 0 <= i < |nodes| ==> nodes[i] in book;
  }

  lemma {:induction false} EntriesInOrder(nodes: seq<string>, lo: nat, k: nat, book: AddressBook)
    requires lo <= |nodes| && k < |nodes|
    ensures var entries := EntriesOf(nodes, lo, |nodes|, k, book);
            && |entries| == |nodes| - lo - (if lo <= k then 1 else 0)
            && forall i :: 0 <= i < |entries| ==>
                 entries[i] == Entry(book, nodes[if lo + i < k || k < lo then lo + i else lo + i + 1])
    decreases |nodes| - lo
  {
    if lo < |nodes| {
      EntriesInOrder(nodes, lo + 1, k, book);
    }
  }
}
