/** Network containment from core/network/utils.py: splitting the
    networks that overlap a given one into enclosing networks ("eldars")
    and sub-networks, and picking the most specific enclosing network. */
module NetworkUtils {
  import opened Wrappers
  import Numbers

  datatype IpVersion = V4 | V6

  /** A network as `update_network` leaves it: its primary key, address
      family, network address (as a number) and prefix length. */
  datatype Network = Network(pk: nat, version: IpVersion, base: nat, prefixlen: nat)

  function Width(v: IpVersion): nat
  {
    if v == V4 then 32 else 128
  }

  /** The address block is CIDR-aligned and inside the address space. */
  predicate WellFormed(n: Network)
  {
    n.prefixlen <= Width(n.version) &&
    n.base % Size(n) == 0 &&
    n.base + Size(n) <= Numbers.Pow2(Width(n.version))
  }

  /** The number of addresses in the block. */
  function Size(n: Network): (r: nat)
    ensures r >= 1
  {
    Numbers.Pow2(if n.prefixlen <= Width(n.version) then Width(n.version) - n.prefixlen else 0)
  }

  /** The broadcast (last) address of the block. */
  function Broadcast(n: Network): nat
  {
    n.base + Size(n) - 1
  }

  /** `address in net` for an address of the given family. */
  predicate InBlock(version: IpVersion, address: nat, net: Network)
  {
    version == net.version && net.base <= address <= Broadcast(net)
  }

  /** `a.overlaps(b)` of the ipaddr library: an end of either block lies
      inside the other; blocks of different families never overlap. */
  predicate Overlaps(a: Network, b: Network)
  {
    InBlock(a.version, a.base, b) || InBlock(a.version, Broadcast(a), b) ||
    InBlock(b.version, b.base, a) || InBlock(b.version, Broadcast(b), a)
  }

  /** Overlap is intersection of the two address ranges. */
  lemma OverlapsIsIntersection(a: Network, b: Network)
    ensures Overlaps(a, b) <==>
            a.version == b.version && a.base <= Broadcast(b) && b.base <= Broadcast(a)
  {
  }

  /** `b`'s block lies inside `a`'s. */
  predicate Contains(a: Network, b: Network)
  {
    a.version == b.version && a.base <= b.base && Broadcast(b) <= Broadcast(a)
  }

  /** The test that sends an overlapping network to the sub-network list. */
  predicate IsSubNetworkOf(p: Network, network: Network)
  {
    p.pk != network.pk && Overlaps(p, network) && p.prefixlen > network.prefixlen
  }

  /** The test that sends an overlapping network to the eldar list. */
  predicate IsEldarOf(p: Network, network: Network)
  {
    p.pk != network.pk && Overlaps(p, network) && p.prefixlen <= network.prefixlen
  }

  function Filter(xs: seq<Network>, keep: Network -> bool): (r: seq<Network>)
    ensures |r| <= |xs|
  {
    if |xs| == 0 then []
    else if keep(xs[0]) then [xs[0]] + Filter(xs[1..], keep)
    else Filter(xs[1..], keep)
  }

  /** The filter keeps exactly the networks that pass. */
  lemma {:induction false} FilterMembers(xs: seq<Network>, keep: Network -> bool, x: Network)
    ensures x in Filter(xs, keep) <==> x in xs && keep(x)
  {
    if |xs| > 0 {
      FilterMembers(xs[1..], keep, x);
      assert x in xs <==> x == xs[0] || x in xs[1..];
    }
  }

  /** One step of the filter from index `i` on. */
  lemma FilterStep(xs: seq<Network>, keep: Network -> bool, i: nat)
    requires i < |xs|
    ensures Filter(xs[i..], keep) == (if keep(xs[i]) then [xs[i]] else []) + Filter(xs[i + 1..], keep)
  {
    assert xs[i..][0] == xs[i] && xs[i..][1..] == xs[i + 1..];
  }

  function Eldars(network: Network, all: seq<Network>): seq<Network>
  {
    Filter(all, p => IsEldarOf(p, network))
  }

  function SubNetworks(network: Network, all: seq<Network>): seq<Network>
  {
    Filter(all, p => IsSubNetworkOf(p, network))
  }

  /** `calc_networks(network)` over `Network.objects.all()` in its order. */
  method CalcNetworks(network: Network, all: seq<Network>) returns (eldars: seq<Network>, subNetworks: seq<Network>)
    ensures eldars == Eldars(network, all)
    ensures subNetworks == SubNetworks(network, all)
  {
    eldars := [];
    subNetworks := [];
    for i := 0 to |all|
      invariant eldars + Eldars(network, all[i..]) == Eldars(network, all)
      invariant subNetworks + SubNetworks(network, all[i..]) == SubNetworks(network, all)
    {
      var pnet := all[i];
      FilterStep(all, p => IsEldarOf(p, network), i);
      FilterStep(all, p => IsSubNetworkOf(p, network), i);
      if pnet.pk == network.pk {
        continue;
      }
      if Overlaps(pnet, network) {
        if pnet.prefixlen > network.prefixlen {
          subNetworks := subNetworks + [pnet];
        } else {
          eldars := eldars + [pnet];
        }
      }
    }
    assert all[|all|..] == [];
  }

  /** The two lists hold exactly the other overlapping networks, split by
      prefix length, and share no element. */
  lemma CalcNetworksMembers(network: Network, all: seq<Network>, p: Network)
    ensures p in Eldars(network, all) <==>
            p in all && p.pk != network.pk && Overlaps(p, network) && p.prefixlen <= network.prefixlen
    ensures p in SubNetworks(network, all) <==>
            p in all && p.pk != network.pk && Overlaps(p, network) && p.prefixlen > network.prefixlen
    ensures !(p in Eldars(network, all) && p in SubNetworks(network, all))
    ensures p in all && p.pk == network.pk ==> p !in Eldars(network, all) && p !in SubNetworks(network, all)
  {
    FilterMembers(all, q => IsEldarOf(q, network), p);
    FilterMembers(all, q => IsSubNetworkOf(q, network), p);
  }

  /** Where in `xs` the `i`-th kept network comes from. */
  function FilterIndex(xs: seq<Network>, keep: Network -> bool, i: nat): (a: nat)
    requires i < |Filter(xs, keep)|
    ensures a < |xs| && xs[a] == Filter(xs, keep)[i]
    decreases |xs|
  {
    if keep(xs[0]) then
      if i == 0 then 0 else 1 + FilterIndex(xs[1..], keep, i - 1)
    else 1 + FilterIndex(xs[1..], keep, i)
  }

  lemma {:induction false} FilterIndexIncreasing(xs: seq<Network>, keep: Network -> bool, i: nat, j: nat)
    requires i < j < |Filter(xs, keep)|
    ensures FilterIndex(xs, keep, i) < FilterIndex(xs, keep, j)
    decreases |xs|
  {
    if keep(xs[0]) {
      if i > 0 {
        FilterIndexIncreasing(xs[1..], keep, i - 1, j - 1);
      }
    } else {
      FilterIndexIncreasing(xs[1..], keep, i, j);
    }
  }

  /** The list order is the iteration order: a later network of `all`
      never comes before an earlier one. */
  lemma FilterKeepsOrder(xs: seq<Network>, keep: Network -> bool, i: nat, j: nat)
    requires i < j < |Filter(xs, keep)|
    ensures exists a, b :: 0 <= a < b < |xs| && xs[a] == Filter(xs, keep)[i] && xs[b] == Filter(xs, keep)[j]
  {
    FilterIndexIncreasing(xs, keep, i, j);
    var a, b := FilterIndex(xs, keep, i), FilterIndex(xs, keep, j);
    assert xs[a] == Filter(xs, keep)[i] && xs[b] == Filter(xs, keep)[j];
  }

  /** The index of the last network with the largest prefix length: the
      head of `reversed(sorted(eldars, key=prefixlen))`, Python's sort
      being stable. */
  function LastMostSpecific(xs: seq<Network>): (k: nat)
    requires |xs| > 0
    ensures k < |xs|
    ensures forall j :: 0 <= j < |xs| ==> xs[j].prefixlen <= xs[k].prefixlen
    ensures forall j :: k < j < |xs| ==> xs[j].prefixlen < xs[k].prefixlen
  {
    if |xs| == 1 then 0
    else
      var k := LastMostSpecific(xs[..|xs| - 1]);
      if xs[|xs| - 1].prefixlen >= xs[k].prefixlen then |xs| - 1 else k
  }

  /** `calc_parent(network)`. */
  function CalcParent(network: Network, all: seq<Network>): Option<Network>
  {
    var eldars := Eldars(network, all);
    if |eldars| == 0 then None else Some(eldars[LastMostSpecific(eldars)])
  }

  lemma MulCancel(x: int, y: int, n: int)
    requires n > 0
    requires x * n < y * n
    ensures x < y
  {
  }

  lemma MulMonotone(x: int, y: int, n: int)
    requires n > 0 && x <= y
    ensures x * n <= y * n
  {
  }

  /** Multiples of `n` below one another are at least `n` apart. */
  lemma MultiplesApart(x: int, y: int, n: int)
    requires n > 0 && x * n < y * n
    ensures (x + 1) * n <= y * n
  {
    MulCancel(x, y, n);
    MulMonotone(x + 1, y, n);
  }

  lemma MulShape(ia: int, k: int, small: int)
    ensures (ia * k) * small == ia * (small * k)
    ensures (ia * k + k) * small == ia * (small * k) + small * k
  {
  }

  /** The arithmetic core of CIDR nesting: with `lo` a multiple of
      `small * k` and `hi` a multiple of `small`, two intersecting ranges
      of sizes `small * k` and `small` are nested. */
  lemma AlignedNested(lo: int, hi: int, small: int, k: int)
    requires small > 0 && k > 0
    requires lo >= 0 && hi >= 0
    requires lo % (small * k) == 0 && hi % small == 0
    requires hi <= lo + small * k - 1
    requires lo <= hi + small - 1
    ensures lo <= hi && hi + small <= lo + small * k
  {
    var big := small * k;
    var ia, ib := lo / big, hi / small;
    assert lo == ia * big;
    assert hi == ib * small;
    MulShape(ia, k, small);
    var top, bottom := ia * k + k, ia * k;
    assert top * small == lo + big;
    assert bottom * small == lo;
    assert (ib + 1) * small == hi + small;
    MultiplesApart(ib, top, small);
    MultiplesApart(bottom, ib + 1, small);
    MulMonotone(bottom + 1, ib + 1, small);
  }

  /** Two aligned blocks that overlap are nested: the shorter prefix
      contains the longer one. */
  lemma NestedWhenOverlapping(a: Network, b: Network)
    requires WellFormed(a) && WellFormed(b)
    requires Overlaps(a, b)
    requires a.prefixlen <= b.prefixlen
    ensures Contains(a, b)
  {
    var w := Width(a.version);
    var k := Numbers.Pow2(b.prefixlen - a.prefixlen);
    Numbers.Pow2Add(w - b.prefixlen, b.prefixlen - a.prefixlen);
    assert Size(a) == Size(b) * k;
    OverlapsIsIntersection(a, b);
    AlignedNested(a.base, b.base, Size(b), k);
  }

  /** `calc_parent` is `None` iff there is no eldar; otherwise it is an
      eldar with the largest prefix length, every eldar encloses the
      network, and (in a well-formed table) the parent lies inside every
      other eldar: it is the most specific enclosing network. */
  lemma CalcParentIsMostSpecific(network: Network, all: seq<Network>)
    ensures CalcParent(network, all).None? <==> |Eldars(network, all)| == 0
    ensures CalcParent(network, all).Some? ==>
            var p := CalcParent(network, all).value;
            p in Eldars(network, all) &&
            forall e :: e in Eldars(network, all) ==> e.prefixlen <= p.prefixlen
    ensures WellFormed(network) && (forall n :: n in all ==> WellFormed(n)) && CalcParent(network, all).Some? ==>
            var p := CalcParent(network, all).value;
            Contains(p, network) && forall e :: e in Eldars(network, all) ==> Contains(e, p)
  {
    var eldars := Eldars(network, all);
    if |eldars| > 0 {
      var p := eldars[LastMostSpecific(eldars)];
      forall e | e in eldars ensures e.prefixlen <= p.prefixlen {
        var j :| 0 <= j < |eldars| && eldars[j] == e;
      }
      if WellFormed(network) && (forall n :: n in all ==> WellFormed(n)) {
        forall e | e in eldars ensures Contains(e, network) {
          CalcNetworksMembers(network, all, e);
          NestedWhenOverlapping(e, network);
        }
        forall e | e in eldars ensures Contains(e, p) {
          CalcNetworksMembers(network, all, e);
          CalcNetworksMembers(network, all, p);
          OverlapsIsIntersection(e, p);
          NestedWhenOverlapping(e, p);
        }
      }
    }
  }
}
