/** Splitting a network into one block per cluster (ApplyCIDRs). */
module Subnets {
  import opened Wrappers
  import opened Resources
  import opened Arithmetic

  /** One entry of the result: the template with its two address fields set. */
  datatype Subnet = Subnet(template: Manifest, networkCidr: Cidr, podAddressRange: Cidr)

  datatype SubnetError = InvalidCidr | PrefixTooLong(prefix: nat)

  function BitsNeeded(clusters: nat): (bits: nat)
    ensures bits >= 1
  {
    BinaryLength(clusters);
    |BinaryDigits(clusters)|
  }

  /** The i-th block of a network cut into blocks of the longer prefix; block 0 starts where the network does. */
  function BlockAt(address: Address, prefix: nat, longer: nat, i: nat): nat
    requires prefix <= longer <= 32
  {
    NetworkOf(address, prefix) + i * BlockSize(longer)
  }

  lemma BlocksOfNetwork(prefix: nat, longer: nat)
    requires prefix <= longer <= 32
    ensures BlockSize(prefix) == Pow2(longer - prefix) * BlockSize(longer)
  {
    Pow2Adds(longer - prefix, 32 - longer);
  }

  /** Blocks below 2^(longer - prefix) end inside the network, hence inside the address space. */
  lemma BlockEndsInside(address: Address, prefix: nat, longer: nat, i: nat)
    requires prefix <= longer <= 32 && i < Pow2(longer - prefix)
    ensures BlockAt(address, prefix, longer, i) + BlockSize(longer) <= NetworkOf(address, prefix) + BlockSize(prefix)
    ensures NetworkOf(address, prefix) + BlockSize(prefix) <= TWO_TO_THE_32
    ensures i * BlockSize(longer) < TWO_TO_THE_32
  {
    BlocksOfNetwork(prefix, longer);
    BlockFits(address, prefix);
    MulGrows(i + 1, Pow2(longer - prefix), BlockSize(longer));
    assert (i + 1) * BlockSize(longer) == i * BlockSize(longer) + BlockSize(longer);
  }

  /** Is `s` the template with the i-th block as its pod address range, and the parent as its network? */
  predicate IsSubnet(s: Subnet, networkCidr: Cidr, template: Manifest, longer: nat, i: nat)
    requires networkCidr.V4? && networkCidr.prefix <= longer <= 32
  {
    && s.template == template && s.networkCidr == networkCidr
    && s.podAddressRange.V4? && s.podAddressRange.prefix == longer
    && s.podAddressRange.address == BlockAt(networkCidr.address, networkCidr.prefix, longer, i)
  }

  /** The blocks, or the error. An IPv6 network is refused like an IPv4 one when the longer prefix exceeds 32 bits;
      with a shorter prefix the program panics. The loop works with wrapping 32-bit sums and products, and nothing
      wraps. */
  method ApplyCidrs(networkCidr: Cidr, template: Manifest, clusters: nat) returns (r: Result<seq<Subnet>, SubnetError>)
    requires networkCidr.V6? || networkCidr.V4Mapped? ==> networkCidr.prefix + BitsNeeded(clusters) > 32
    ensures networkCidr.Unparsable? ==> r == Failure(InvalidCidr)
    ensures !networkCidr.Unparsable? ==>
      var longer := networkCidr.prefix + BitsNeeded(clusters);
      if longer > 32 then r == Failure(PrefixTooLong(longer))
      else
        && r.Success? && |r.value| == clusters
        && forall i :: 0 <= i < clusters ==> IsSubnet(r.value[i], networkCidr, template, longer, i + 1)
  {
    if networkCidr.Unparsable? {
      return Failure(InvalidCidr);
    }
    var ones := networkCidr.prefix;
    var bitsNeeded := BitsNeeded(clusters);
    var newPrefix := ones + bitsNeeded;
    if newPrefix > 32 {
      return Failure(PrefixTooLong(newPrefix));
    }
    var blockSize := BlockSize(newPrefix);
    var base := NetworkOf(networkCidr.address, ones);
    BinaryLength(clusters);
    var networks: seq<Subnet> := [];
    var i := 1;
    while i <= clusters
      invariant 1 <= i <= clusters + 1 && |networks| == i - 1
      invariant forall j :: 0 <= j < i - 1 ==> IsSubnet(networks[j], networkCidr, template, newPrefix, j + 1)
    {
      BlockEndsInside(networkCidr.address, ones, newPrefix, i);
      var newIp := Add32(base, Mul32(i % TWO_TO_THE_32, blockSize));
      assert newIp == BlockAt(networkCidr.address, ones, newPrefix, i) by {
        NoWrap(base, i, blockSize);
      }
      networks := networks + [Subnet(template, networkCidr, V4(newIp, newPrefix))];
      i := i + 1;
    }
    return Success(networks);
  }

  lemma NoWrap(base: nat, i: nat, size: nat)
    requires size > 0 && base + i * size < TWO_TO_THE_32
    ensures i < TWO_TO_THE_32 && i * size < TWO_TO_THE_32
    ensures Add32(base, Mul32(i % TWO_TO_THE_32, size)) == base + i * size
  {
    MulGrows(1, size, i);
    assert i * size == size * i;
  }

  // ------------------------------------------------------------------ what the blocks are

  /** The number of the i-th block, counted over the whole address space. */
  function BlockNumber(address: Address, prefix: nat, longer: nat, i: nat): int
    requires prefix <= longer <= 32
  {
    (address / BlockSize(prefix)) * Pow2(longer - prefix) + i
  }

  lemma BlockIsMultiple(address: Address, prefix: nat, longer: nat, i: nat, q: int)
    requires prefix <= longer <= 32 && q == BlockNumber(address, prefix, longer, i)
    ensures BlockAt(address, prefix, longer, i) == q * BlockSize(longer)
  {
    BlocksOfNetwork(prefix, longer);
    FactorOut(address / BlockSize(prefix), Pow2(longer - prefix), BlockSize(longer), i, BlockSize(prefix));
  }

  lemma NumberOfBlock(address: Address, prefix: nat, longer: nat, i: nat, q: int)
    requires prefix <= longer <= 32 && q == BlockNumber(address, prefix, longer, i)
    ensures BlockAt(address, prefix, longer, i) / BlockSize(longer) == q
  {
    BlockIsMultiple(address, prefix, longer, i, q);
    QuotientIsUnique(BlockAt(address, prefix, longer, i), BlockSize(longer), q);
  }

  lemma Multiple(x: int, q: int, d: int)
    requires d > 0 && x == q * d
    ensures x % d == 0
  {
    QuotientIsUnique(x, d, q);
  }

  /** An address of block i, for i below 2^(longer - prefix), is an address of the parent. */
  lemma BlockInParent(address: Address, prefix: nat, longer: nat, i: nat, a: Address)
    requires prefix <= longer <= 32 && i < Pow2(longer - prefix)
    requires a / BlockSize(longer) == BlockNumber(address, prefix, longer, i)
    ensures SameBlock(a, address, prefix)
  {
    var s, t, q := BlockSize(longer), Pow2(longer - prefix), address / BlockSize(prefix);
    BlocksOfNetwork(prefix, longer);
    QuotientOfQuotient(a, s, t);
    QuotientIsUnique(q * t + i, t, q);
    assert s * t == t * s;
  }

  lemma BlockIsAligned(address: Address, prefix: nat, longer: nat, i: nat)
    requires prefix <= longer <= 32
    ensures BlockAt(address, prefix, longer, i) % BlockSize(longer) == 0
  {
    var q := BlockNumber(address, prefix, longer, i);
    BlockIsMultiple(address, prefix, longer, i, q);
    Multiple(BlockAt(address, prefix, longer, i), q, BlockSize(longer));
  }

  lemma CarvedBlockIsInside(address: Address, prefix: nat, longer: nat, i: nat, a: Address)
    requires prefix <= longer <= 32 && i < Pow2(longer - prefix)
    ensures var block := BlockAt(address, prefix, longer, i);
            && block < TWO_TO_THE_32 && block % BlockSize(longer) == 0
            && (SameBlock(a, block, longer) ==> SameBlock(a, address, prefix))
  {
    BlockEndsInside(address, prefix, longer, i);
    BlockIsAligned(address, prefix, longer, i);
    if SameBlock(a, BlockAt(address, prefix, longer, i), longer) {
      NumberOfBlock(address, prefix, longer, i, BlockNumber(address, prefix, longer, i));
      BlockInParent(address, prefix, longer, i, a);
    }
  }

  lemma CarvedBlocksAreApart(address: Address, prefix: nat, longer: nat, i: nat, j: nat, a: Address)
    requires prefix <= longer <= 32 && i < Pow2(longer - prefix) && j < Pow2(longer - prefix) && i != j
    requires BlockAt(address, prefix, longer, i) < TWO_TO_THE_32 && BlockAt(address, prefix, longer, j) < TWO_TO_THE_32
    ensures !(SameBlock(a, BlockAt(address, prefix, longer, i), longer) &&
              SameBlock(a, BlockAt(address, prefix, longer, j), longer))
  {
    NumberOfBlock(address, prefix, longer, i, BlockNumber(address, prefix, longer, i));
    NumberOfBlock(address, prefix, longer, j, BlockNumber(address, prefix, longer, j));
  }

  /** Block 0 starts where the parent network does, and each block starts where the one before it ends. */
  lemma BlocksFollowEachOther(address: Address, prefix: nat, longer: nat, i: nat)
    requires prefix <= longer <= 32
    ensures BlockAt(address, prefix, longer, 0) == (address / Pow2(32 - prefix)) * Pow2(32 - prefix)
    ensures BlockAt(address, prefix, longer, i + 1) == BlockAt(address, prefix, longer, i) + Pow2(32 - longer)
  {
    MulDistributes(i, 1, BlockSize(longer));
  }

  /** Safety: the blocks 1..n are aligned, lie in the parent network, and no address is in two of them or in block 0. */
  lemma CarvingIsSafe(address: Address, prefix: nat, clusters: nat, i: nat, j: nat, a: Address)
    requires prefix + BitsNeeded(clusters) <= 32
    requires i <= clusters && j <= clusters && i != j
    ensures var longer := prefix + BitsNeeded(clusters);
            && BlockAt(address, prefix, longer, i) < TWO_TO_THE_32
            && BlockAt(address, prefix, longer, j) < TWO_TO_THE_32
            && BlockAt(address, prefix, longer, i) % BlockSize(longer) == 0
            && (SameBlock(a, BlockAt(address, prefix, longer, i), longer) ==> SameBlock(a, address, prefix))
            && !(SameBlock(a, BlockAt(address, prefix, longer, i), longer) &&
                 SameBlock(a, BlockAt(address, prefix, longer, j), longer))
  {
    var longer := prefix + BitsNeeded(clusters);
    BinaryLength(clusters);
    CarvedBlockIsInside(address, prefix, longer, i, a);
    CarvedBlockIsInside(address, prefix, longer, j, a);
    CarvedBlocksAreApart(address, prefix, longer, i, j, a);
  }

  /** Tightness: with any shorter prefix, block n of the n wanted ones starts past the end of the parent network. */
  lemma {:induction false} CarvingIsTight(address: Address, prefix: nat, clusters: nat, shorter: nat)
    requires clusters >= 1 && prefix + BitsNeeded(clusters) <= 32
    requires prefix <= shorter < prefix + BitsNeeded(clusters)
    ensures BlockAt(address, prefix, shorter, clusters) >= NetworkOf(address, prefix) + BlockSize(prefix)
  {
    BinaryLength(clusters);
    Pow2Grows(shorter - prefix, BitsNeeded(clusters) - 1);
    BlocksOfNetwork(prefix, shorter);
    MulGrows(Pow2(shorter - prefix), clusters, BlockSize(shorter));
  }

  /** The error is returned exactly when the parent has fewer than 2^bits addresses. */
  lemma CarvingFailsExactly(prefix: nat, clusters: nat)
    requires prefix <= 32
    ensures prefix + BitsNeeded(clusters) > 32 <==> BlockSize(prefix) < Pow2(BitsNeeded(clusters))
  {
    var bits := BitsNeeded(clusters);
    if prefix + bits > 32 {
      Pow2Grows(32 - prefix, bits);
    } else {
      Pow2Grows(bits, 32 - prefix);
    }
  }
}
