/** The default topology of an overlay: a full mesh over its nodes (GenerateTopology). */
module Topology {
  import opened Resources

  /** The index pairs that the double loop visits from (i, j) on, in its order. */
  function PairsFrom(n: nat, i: nat, j: nat): seq<(nat, nat)>
    decreases n - i, n - j
  {
    if i >= n then []
    else if j >= n then PairsFrom(n, i + 1, i + 2)
    else [(i, j)] + PairsFrom(n, i, j + 1)
  }

  function Pairs(n: nat): seq<(nat, nat)> {
    PairsFrom(n, 0, 1)
  }

  function LinkOf(nodes: seq<string>, p: (nat, nat)): Link
    requires p.0 < |nodes| && p.1 < |nodes|
  {
    Link(nodes[p.0], nodes[p.1])
  }

  function LinksFrom(nodes: seq<string>, i: nat, j: nat): seq<Link>
    requires i < j
    decreases |nodes| - i, |nodes| - j
  {
    if i >= |nodes| then []
    else if j >= |nodes| then LinksFrom(nodes, i + 1, i + 2)
    else [Link(nodes[i], nodes[j])] + LinksFrom(nodes, i, j + 1)
  }

  ghost predicate Matches(nodes: seq<string>, links: seq<Link>, pairs: seq<(nat, nat)>) {
    && |links| == |pairs|
    && forall k :: 0 <= k < |links| ==> pairs[k].0 < pairs[k].1 < |nodes| && links[k] == LinkOf(nodes, pairs[k])
  }

  lemma OneMoreMatches(nodes: seq<string>, i: nat, j: nat, links: seq<Link>, pairs: seq<(nat, nat)>)
    requires i < j < |nodes| && Matches(nodes, links, pairs)
    ensures Matches(nodes, [Link(nodes[i], nodes[j])] + links, [(i, j)] + pairs)
  {
  }

  /** The k-th link joins the k-th index pair. */
  lemma {:induction false} LinksMatchPairs(nodes: seq<string>, i: nat, j: nat)
    requires i < j
    ensures Matches(nodes, LinksFrom(nodes, i, j), PairsFrom(|nodes|, i, j))
    decreases |nodes| - i, |nodes| - j
  {
    if i < |nodes| {
      if j >= |nodes| {
        LinksMatchPairs(nodes, i + 1, i + 2);
      } else {
        LinksMatchPairs(nodes, i, j + 1);
        OneMoreMatches(nodes, i, j, LinksFrom(nodes, i, j + 1), PairsFrom(|nodes|, i, j + 1));
      }
    }
  }

  function Mesh(nodes: seq<string>): seq<Link> {
    LinksFrom(nodes, 0, 1)
  }

  /** The links made so far, followed by those still to be made, are the whole mesh. */
  ghost predicate OnTheWay(nodes: seq<string>, links: seq<Link>, i: nat, j: nat)
    requires i < j
  {
    links + LinksFrom(nodes, i, j) == Mesh(nodes)
  }

  lemma AppendOne(a: seq<Link>, l: Link, b: seq<Link>)
    ensures a + ([l] + b) == (a + [l]) + b
  {
  }

  lemma NextLink(nodes: seq<string>, links: seq<Link>, i: nat, j: nat)
    requires i < j < |nodes| && OnTheWay(nodes, links, i, j)
    ensures OnTheWay(nodes, links + [Link(nodes[i], nodes[j])], i, j + 1)
  {
    AppendOne(links, Link(nodes[i], nodes[j]), LinksFrom(nodes, i, j + 1));
  }

  lemma NextRow(nodes: seq<string>, links: seq<Link>, i: nat, j: nat)
    requires i < |nodes| <= j && OnTheWay(nodes, links, i, j)
    ensures OnTheWay(nodes, links, i + 1, i + 2)
  {
  }

  lemma AllMade(nodes: seq<string>, links: seq<Link>, i: nat)
    requires |nodes| <= i && OnTheWay(nodes, links, i, i + 1)
    ensures links == Mesh(nodes)
  {
    assert links + [] == links;
  }

  method GenerateTopology(nodes: seq<string>) returns (links: seq<Link>)
    ensures links == Mesh(nodes)
  {
    links := [];
    assert OnTheWay(nodes, [], 0, 1);
    var numNodes := |nodes|;
    var i := 0;
    while i < numNodes
      invariant 0 <= i <= numNodes
      invariant OnTheWay(nodes, links, i, i + 1)
    {
      var j := i + 1;
      while j < numNodes
        invariant i < j <= numNodes
        invariant OnTheWay(nodes, links, i, j)
      {
        NextLink(nodes, links, i, j);
        links := links + [Link(nodes[i], nodes[j])];
        j := j + 1;
      }
      NextRow(nodes, links, i, j);
      i := i + 1;
    }
    AllMade(nodes, links, i);
  }

  // ------------------------------------------------------------------ a bijection

  /** The mesh has as many links as its preallocated capacity. */
  lemma {:induction false} RowsAddUp(n: nat, i: nat, j: nat)
    requires i < j <= n
    ensures 2 * |PairsFrom(n, i, j)| == 2 * (n - j) + (n - i - 1) * (n - i - 2)
    decreases n - i, n - j
  {
    if j == n {
      if i + 1 < n {
        RowsAddUp(n, i + 1, i + 2);
      }
      assert (n - (i + 1) - 1) * (n - (i + 1) - 2) + 2 * (n - (i + 2)) == (n - i - 1) * (n - i - 2) by {
        var m := n - i - 2;
        assert (m) * (m - 1) + 2 * m == (m + 1) * m;
      }
    } else {
      RowsAddUp(n, i, j + 1);
    }
  }

  lemma MeshSize(nodes: seq<string>)
    ensures |Mesh(nodes)| == |nodes| * (|nodes| - 1) / 2
  {
    var n := |nodes|;
    LinksMatchPairs(nodes, 0, 1);
    if n > 0 {
      RowsAddUp(n, 0, 1);
      assert 2 * (n - 1) + (n - 1) * (n - 2) == n * (n - 1);
    }
  }

  /** The number of positions that hold `p`. */
  function Count(pairs: seq<(nat, nat)>, p: (nat, nat)): nat {
    if pairs == [] then 0 else (if pairs[0] == p then 1 else 0) + Count(pairs[1..], p)
  }

  lemma {:induction false} PairsFromCount(n: nat, i: nat, j: nat, p: (nat, nat))
    requires i < j
    ensures Count(PairsFrom(n, i, j), p) == if (p.0 == i && j <= p.1 < n) || (i < p.0 < p.1 < n) then 1 else 0
    decreases n - i, n - j
  {
    if i < n {
      if j >= n {
        PairsFromCount(n, i + 1, i + 2, p);
      } else {
        PairsFromCount(n, i, j + 1, p);
        assert PairsFrom(n, i, j)[1..] == PairsFrom(n, i, j + 1);
      }
    }
  }

  /** Every index pair i < j is at exactly one position, and no other pair is at any. */
  lemma EveryPairOnce(n: nat, p: (nat, nat))
    ensures Count(Pairs(n), p) == if p.0 < p.1 < n then 1 else 0
  {
    PairsFromCount(n, 0, 1, p);
  }

  predicate Joins(l: Link, a: string, b: string) {
    (l.endpointA == a && l.endpointB == b) || (l.endpointA == b && l.endpointB == a)
  }

  /** The number of links between two clusters. */
  function Between(links: seq<Link>, a: string, b: string): nat {
    if links == [] then 0
    else (if Joins(links[0], a, b) then 1 else 0) + Between(links[1..], a, b)
  }

  lemma LinkJoins(nodes: seq<string>, i: nat, j: nat, x: nat, y: nat)
    requires i < j < |nodes| && x < y < |nodes| && Distinct(nodes)
    ensures Joins(Link(nodes[i], nodes[j]), nodes[x], nodes[y]) <==> i == x && j == y
  {
    if i != x {
      DistinctApart(nodes, i, x);
    }
    if j != y {
      DistinctApart(nodes, j, y);
    }
    if i == y && j == x {
    } else if i != y {
      DistinctApart(nodes, i, y);
    } else {
      DistinctApart(nodes, j, x);
    }
  }

  lemma OneMoreLink(nodes: seq<string>, i: nat, j: nat, x: nat, y: nat)
    requires i < j < |nodes| && x < y < |nodes| && Distinct(nodes)
    ensures Between(LinksFrom(nodes, i, j), nodes[x], nodes[y]) ==
            (if i == x && j == y then 1 else 0) + Between(LinksFrom(nodes, i, j + 1), nodes[x], nodes[y])
  {
    LinkJoins(nodes, i, j, x, y);
    var rest := LinksFrom(nodes, i, j + 1);
    assert LinksFrom(nodes, i, j) == [Link(nodes[i], nodes[j])] + rest;
    assert ([Link(nodes[i], nodes[j])] + rest)[1..] == rest;
  }

  /** The links from (i, j) on that join x and y. */
  ghost function JoinsFrom(nodes: seq<string>, i: nat, j: nat, x: string, y: string): nat
    requires i < j
  {
    Between(LinksFrom(nodes, i, j), x, y)
  }

  lemma RowEnds(nodes: seq<string>, i: nat, x: string, y: string)
    requires i < |nodes|
    ensures JoinsFrom(nodes, i, |nodes|, x, y) == JoinsFrom(nodes, i + 1, i + 2, x, y)
  {
    assert LinksFrom(nodes, i, |nodes|) == LinksFrom(nodes, i + 1, i + 2);
  }

  lemma RowGrows(nodes: seq<string>, i: nat, j: nat, x: nat, y: nat, later: nat)
    requires i < j < |nodes| && x < y < |nodes| && Distinct(nodes)
    requires JoinsFrom(nodes, i, j + 1, nodes[x], nodes[y]) == (if i == x && j + 1 <= y then 1 else 0) + later
    ensures JoinsFrom(nodes, i, j, nodes[x], nodes[y]) == (if i == x && j <= y then 1 else 0) + later
  {
    OneMoreLink(nodes, i, j, x, y);
  }

  lemma {:induction false} RowBetween(nodes: seq<string>, i: nat, j: nat, x: nat, y: nat, later: nat)
    requires i < j <= |nodes| && x < y < |nodes| && Distinct(nodes)
    requires later == JoinsFrom(nodes, i + 1, i + 2, nodes[x], nodes[y])
    ensures JoinsFrom(nodes, i, j, nodes[x], nodes[y]) == (if i == x && j <= y then 1 else 0) + later
    decreases |nodes| - j
  {
    if j < |nodes| {
      RowBetween(nodes, i, j + 1, x, y, later);
      RowGrows(nodes, i, j, x, y, later);
    } else {
      RowEnds(nodes, i, nodes[x], nodes[y]);
    }
  }

  /** The links of the rows from i on that join x and y. */
  ghost function JoinsFromRow(nodes: seq<string>, i: nat, x: string, y: string): nat {
    Between(LinksFrom(nodes, i, i + 1), x, y)
  }

  lemma LastRow(nodes: seq<string>, x: string, y: string)
    ensures JoinsFromRow(nodes, |nodes|, x, y) == 0
  {
  }

  lemma OneMoreRow(nodes: seq<string>, i: nat, x: nat, y: nat)
    requires i < |nodes| && x < y < |nodes| && Distinct(nodes)
    ensures JoinsFromRow(nodes, i, nodes[x], nodes[y]) ==
            (if i == x then 1 else 0) + JoinsFromRow(nodes, i + 1, nodes[x], nodes[y])
  {
    RowBetween(nodes, i, i + 1, x, y, JoinsFromRow(nodes, i + 1, nodes[x], nodes[y]));
  }

  lemma {:induction false} RowsBetween(nodes: seq<string>, i: nat, x: nat, y: nat)
    requires i <= |nodes| && x < y < |nodes| && Distinct(nodes)
    ensures JoinsFromRow(nodes, i, nodes[x], nodes[y]) == if i <= x then 1 else 0
    decreases |nodes| - i
  {
    if i < |nodes| {
      OneMoreRow(nodes, i, x, y);
      RowsBetween(nodes, i + 1, x, y);
    } else {
      LastRow(nodes, nodes[x], nodes[y]);
    }
  }

  /** With distinct names, every two different nodes are joined by exactly one link, and none is joined to itself. */
  lemma MeshJoinsOnce(nodes: seq<string>, x: nat, y: nat)
    requires x < |nodes| && y < |nodes| && Distinct(nodes)
    ensures x != y ==> Between(Mesh(nodes), nodes[x], nodes[y]) == 1
    ensures forall l :: l in Mesh(nodes) ==> l.endpointA != l.endpointB
  {
    if x < y {
      RowsBetween(nodes, 0, x, y);
    } else if y < x {
      RowsBetween(nodes, 0, y, x);
      BetweenIsSymmetric(Mesh(nodes), nodes[x], nodes[y]);
    }
    forall l | l in Mesh(nodes)
      ensures l.endpointA != l.endpointB
    {
      LinksMatchPairs(nodes, 0, 1);
      var k :| 0 <= k < |Mesh(nodes)| && Mesh(nodes)[k] == l;
      var p := Pairs(|nodes|)[k];
      DistinctApart(nodes, p.0, p.1);
    }
  }

  lemma {:induction false} BetweenIsSymmetric(links: seq<Link>, a: string, b: string)
    ensures Between(links, a, b) == Between(links, b, a)
  {
    if links != [] {
      BetweenIsSymmetric(links[1..], a, b);
    }
  }
}
