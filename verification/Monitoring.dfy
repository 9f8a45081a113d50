/** Handing out one monitoring address per cluster of a slice (allocateMonitoringNodeIPs). */
module Monitoring {
  import opened Wrappers
  import opened Resources
  import opened Arithmetic

  datatype AllocationError =
    | InvalidCidr
    | NotIpv4
    | UnexpectedMask
    | TooSmall
    | NotEnough(usable: nat, wanted: nat)
    | EmptyName
    | DuplicateName(name: string)

  type Allocation = map<string, HostAddress>

  // ------------------------------------------------------------------ what is computed

  /** The complaint about the names from position `i` on, if any. */
  function NameFault(names: seq<string>, i: nat): Option<AllocationError>
    requires i <= |names|
    decreases |names| - i
  {
    if i == |names| then None
    else if names[i] == "" then Some(EmptyName)
    else if names[i] in names[..i] then Some(DuplicateName(names[i]))
    else NameFault(names, i + 1)
  }

  /** Host number i + 1, counted from the address as written, for the i-th of the first `n` names. */
  function Allotted(address: Address, prefix: nat, names: seq<string>, n: nat): Allocation
    requires n <= |names|
  {
    if n == 0 then map[]
    else Allotted(address, prefix, names, n - 1)[names[n - 1] := HostAddress(Add32(address, n), prefix)]
  }

  function Allocate(cidr: Cidr, names: seq<string>): Result<Allocation, AllocationError>
  {
    if names == [] then Success(map[])
    else match cidr
      case Unparsable => Failure(InvalidCidr)
      case V6(_, _) => Failure(NotIpv4)
      case V4Mapped(_, _) => Failure(UnexpectedMask)
      case V4(address, prefix) =>
        if BlockSize(prefix) < 4 then Failure(TooSmall)
        else if |names| > BlockSize(prefix) - 2 then Failure(NotEnough(BlockSize(prefix) - 2, |names|))
        else match NameFault(names, 0)
          case Some(error) => Failure(error)
          case None => Success(Allotted(address, prefix, names, |names|))
  }

  method AllocateMonitoringNodeIps(cidr: Cidr, clusters: seq<OverlayCluster>)
    returns (r: Result<Allocation, AllocationError>)
    ensures r == Allocate(cidr, ClusterNames(clusters))
  {
    if |clusters| == 0 {
      return Success(map[]);
    }
    match cidr
    case Unparsable => return Failure(InvalidCidr);
    case V6(_, _) => return Failure(NotIpv4);
    case V4Mapped(_, _) => return Failure(UnexpectedMask);
    case V4(base, ones) =>
      var totalAddresses := BlockSize(ones);
      if totalAddresses < 4 {
        return Failure(TooSmall);
      }
      var usableHosts := totalAddresses - 2;
      if |clusters| > usableHosts {
        return Failure(NotEnough(usableHosts, |clusters|));
      }
      HostNumberFits(ones, |clusters|);
      r := HandOut(base, ones, clusters);
  }

  /** The loop of the allocation: host numbers in the order of the list, up to a name that is empty or already seen. */
  method HandOut(base: Address, ones: nat, clusters: seq<OverlayCluster>)
    returns (r: Result<Allocation, AllocationError>)
    requires |clusters| < TWO_TO_THE_32
    ensures r == match NameFault(ClusterNames(clusters), 0)
                 case Some(error) => Failure(error)
                 case None => Success(Allotted(base, ones, ClusterNames(clusters), |clusters|))
  {
    ghost var names := ClusterNames(clusters);
    var handedOut: Allocation := map[];
    for i := 0 to |clusters|
      invariant handedOut == Allotted(base, ones, names, i)
      invariant handedOut.Keys == Seen(names, i)
      invariant NameFault(names, 0) == NameFault(names, i)
    {
      var name := clusters[i].name;
      if name == "" {
        return Failure(EmptyName);
      }
      SeenOneMore(names, i);
      if name in handedOut {
        return Failure(DuplicateName(name));
      }
      AllotOneMore(base, ones, names, i);
      handedOut := handedOut[name := HostAddress(Add32(base, (i + 1) % TWO_TO_THE_32), ones)];
    }
    return Success(handedOut);
  }

  lemma AllotOneMore(base: Address, ones: nat, names: seq<string>, i: nat)
    requires i < |names| && i + 1 < TWO_TO_THE_32
    ensures Allotted(base, ones, names, i + 1)
         == Allotted(base, ones, names, i)[names[i] := HostAddress(Add32(base, (i + 1) % TWO_TO_THE_32), ones)]
  {
  }

  ghost function Seen(names: seq<string>, n: nat): set<string>
    requires n <= |names|
  {
    set name | name in names[..n]
  }

  lemma SeenOneMore(names: seq<string>, i: nat)
    requires i < |names|
    ensures names[i] in names[..i] <==> names[i] in Seen(names, i)
    ensures Seen(names, i + 1) == Seen(names, i) + {names[i]}
  {
    assert names[..i + 1] == names[..i] + [names[i]];
  }

  lemma HostNumberFits(prefix: nat, n: nat)
    requires prefix <= 32 && n < BlockSize(prefix)
    ensures n < TWO_TO_THE_32
  {
    BlockFits(0, prefix);
  }

  // ------------------------------------------------------------------ when it succeeds

  lemma {:induction false} NamesAreFine(names: seq<string>, i: nat)
    requires i <= |names|
    ensures NameFault(names, i) == None <==> forall j :: i <= j < |names| ==> names[j] != "" && names[j] !in names[..j]
    decreases |names| - i
  {
    if i < |names| {
      NamesAreFine(names, i + 1);
    }
  }

  lemma PrefixLeavesRoom(prefix: nat)
    requires prefix <= 32
    ensures BlockSize(prefix) >= 4 <==> prefix <= 30
  {
    assert Pow2(2) == 4 && Pow2(1) == 2;
    if prefix <= 30 {
      Pow2Grows(2, 32 - prefix);
    } else {
      Pow2Grows(32 - prefix, 1);
    }
  }

  /** Success exactly on an IPv4 prefix of at most 30 bits with room for all, and distinct non-empty names. */
  lemma AllocationSucceedsExactly(cidr: Cidr, names: seq<string>)
    requires names != []
    ensures Allocate(cidr, names).Success? <==>
            && cidr.V4? && cidr.prefix <= 30
            && |names| <= BlockSize(cidr.prefix) - 2
            && (forall i :: 0 <= i < |names| ==> names[i] != "")
            && Distinct(names)
  {
    NamesAreFine(names, 0);
    if cidr.V4? {
      PrefixLeavesRoom(cidr.prefix);
    }
  }

  /** No complaint about the names before the i-th. */
  predicate FineBefore(names: seq<string>, i: nat)
    requires i <= |names|
  {
    forall j :: 0 <= j < i ==> names[j] != "" && names[j] !in names[..j]
  }

  lemma {:induction false} FirstNameFault(names: seq<string>, from: nat, i: nat)
    requires from <= i < |names| && FineBefore(names, i)
    ensures names[i] == "" ==> NameFault(names, from) == Some(EmptyName)
    ensures names[i] != "" && names[i] in names[..i] ==> NameFault(names, from) == Some(DuplicateName(names[i]))
    decreases i - from
  {
    if from < i {
      FirstNameFault(names, from + 1, i);
    }
  }

  /** Which error is reported: the network is looked at first, then its size, then the names, and of them the first
      that is empty or a repetition. */
  lemma AllocationErrors(cidr: Cidr, names: seq<string>, i: nat)
    requires i < |names|
    ensures cidr.Unparsable? ==> Allocate(cidr, names) == Failure(InvalidCidr)
    ensures cidr.V6? ==> Allocate(cidr, names) == Failure(NotIpv4)
    ensures cidr.V4Mapped? ==> Allocate(cidr, names) == Failure(UnexpectedMask)
    ensures cidr.V4? && cidr.prefix > 30 ==> Allocate(cidr, names) == Failure(TooSmall)
    ensures cidr.V4? && cidr.prefix <= 30 && |names| > Pow2(32 - cidr.prefix) - 2 ==>
              Allocate(cidr, names) == Failure(NotEnough(Pow2(32 - cidr.prefix) - 2, |names|))
    ensures cidr.V4? && cidr.prefix <= 30 && |names| <= Pow2(32 - cidr.prefix) - 2 && FineBefore(names, i) ==>
              && (names[i] == "" ==> Allocate(cidr, names) == Failure(EmptyName))
              && (names[i] != "" && names[i] in names[..i] ==>
                    Allocate(cidr, names) == Failure(DuplicateName(names[i])))
  {
    if cidr.V4? {
      PrefixLeavesRoom(cidr.prefix);
    }
    if FineBefore(names, i) {
      FirstNameFault(names, 0, i);
    }
  }

  // ------------------------------------------------------------------ what is handed out

  lemma {:induction false} AllottedAt(address: Address, prefix: nat, names: seq<string>, n: nat, i: nat)
    requires i < n <= |names| && Distinct(names)
    ensures names[i] in Allotted(address, prefix, names, n)
    ensures Allotted(address, prefix, names, n)[names[i]] == HostAddress(Add32(address, i + 1), prefix)
  {
    if i < n - 1 {
      DistinctApart(names, i, n - 1);
      AllottedAt(address, prefix, names, n - 1, i);
    }
  }

  lemma {:induction false} AllottedKeys(address: Address, prefix: nat, names: seq<string>, n: nat)
    requires n <= |names|
    ensures forall name :: name in Allotted(address, prefix, names, n) <==> name in names[..n]
  {
    if n > 0 {
      AllottedKeys(address, prefix, names, n - 1);
      assert names[..n] == names[..n - 1] + [names[n - 1]];
    }
  }

  /** Exactly the named clusters get an address, the i-th name gets host number i + 1, all with the mask of the
      network, and no two get the same. */
  lemma AllocationIsInjective(cidr: Cidr, names: seq<string>)
    requires names != [] && Allocate(cidr, names).Success?
    ensures var handedOut := Allocate(cidr, names).value;
            && (forall name :: name in handedOut <==> name in names)
            && (forall i :: 0 <= i < |names| ==>
                  handedOut[names[i]] == HostAddress(Add32(cidr.address, i + 1), cidr.prefix))
            && (forall a, b :: a in handedOut && b in handedOut && a != b ==> handedOut[a].ip != handedOut[b].ip)
            && (forall a :: a in handedOut ==> handedOut[a].prefix == cidr.prefix)
  {
    AllocationSucceedsExactly(cidr, names);
    var handedOut := Allocate(cidr, names).value;
    AllottedKeys(cidr.address, cidr.prefix, names, |names|);
    assert names[..|names|] == names;
    forall i | 0 <= i < |names|
      ensures handedOut[names[i]] == HostAddress(Add32(cidr.address, i + 1), cidr.prefix)
    {
      AllottedAt(cidr.address, cidr.prefix, names, |names|, i);
    }
    HostNumberFits(cidr.prefix, |names|);
    forall a, b | a in handedOut && b in handedOut && a != b
      ensures handedOut[a].ip != handedOut[b].ip
    {
      var i :| 0 <= i < |names| && names[i] == a;
      var j :| 0 <= j < |names| && names[j] == b;
      SumsDiffer(cidr.address, i + 1, j + 1);
    }
  }

  lemma SumsDiffer(address: Address, i: nat, j: nat)
    requires i < TWO_TO_THE_32 && j < TWO_TO_THE_32 && i != j
    ensures Add32(address, i) != Add32(address, j)
  {
  }

  /** Strictly between the network address and the broadcast address (section 3.2.1.3 of RFC 1122). */
  predicate IsHost(cidr: Cidr, ip: Address)
    requires cidr.V4?
  {
    NetworkOf(cidr.address, cidr.prefix) < ip < NetworkOf(cidr.address, cidr.prefix) + BlockSize(cidr.prefix) - 1
  }

  /** The n-th number after the address is a host address as long as it stays below the broadcast address. */
  lemma HostNumberInside(cidr: Cidr, n: nat)
    requires cidr.V4? && n >= 1
    requires HostOffset(cidr.address, cidr.prefix) + n <= BlockSize(cidr.prefix) - 2
    ensures IsHost(cidr, Add32(cidr.address, n))
  {
    BlockFits(cidr.address, cidr.prefix);
    assert Add32(cidr.address, n) == cidr.address + n;
  }

  /** Counting on reaches the broadcast address, or starts right after it. */
  lemma HostNumberOutside(cidr: Cidr, count: nat) returns (n: nat)
    requires cidr.V4? && count >= 1
    requires HostOffset(cidr.address, cidr.prefix) + count > BlockSize(cidr.prefix) - 2
    ensures 1 <= n <= count && !IsHost(cidr, Add32(cidr.address, n))
  {
    var offset, size := HostOffset(cidr.address, cidr.prefix), BlockSize(cidr.prefix);
    BlockFits(cidr.address, cidr.prefix);
    if offset == size - 1 {
      n := 1;
      assert Add32(cidr.address, n) == cidr.address + 1 || Add32(cidr.address, n) == 0;
    } else {
      n := size - 1 - offset;
      assert Add32(cidr.address, n) == NetworkOf(cidr.address, cidr.prefix) + size - 1;
    }
  }

  /** All addresses are host addresses of the network exactly when the host bits of the written address leave room;
      with zero host bits they always do. */
  lemma HostsStayInsideExactly(cidr: Cidr, names: seq<string>)
    requires names != [] && Allocate(cidr, names).Success?
    ensures cidr.V4?
    ensures (forall name :: name in names ==>
               name in Allocate(cidr, names).value && IsHost(cidr, Allocate(cidr, names).value[name].ip)) <==>
            HostOffset(cidr.address, cidr.prefix) + |names| <= BlockSize(cidr.prefix) - 2
    ensures HostOffset(cidr.address, cidr.prefix) == 0 ==>
            HostOffset(cidr.address, cidr.prefix) + |names| <= BlockSize(cidr.prefix) - 2
  {
    AllocationSucceedsExactly(cidr, names);
    AllocationIsInjective(cidr, names);
    var handedOut := Allocate(cidr, names).value;
    if HostOffset(cidr.address, cidr.prefix) + |names| <= BlockSize(cidr.prefix) - 2 {
      forall name | name in names
        ensures IsHost(cidr, handedOut[name].ip)
      {
        var i :| 0 <= i < |names| && names[i] == name;
        HostNumberInside(cidr, i + 1);
      }
    } else {
      var n := HostNumberOutside(cidr, |names|);
      assert handedOut[names[n - 1]].ip == Add32(cidr.address, n);
      assert names[n - 1] in names;
    }
  }
}
