/** EC2 IP permissions: the canonical ingress rule built from the Bastion's
    declared CIDRs, the canonical egress and worker rules, rule equality and
    the egress rules to revoke. */
module Permissions {
  import opened Base
  import opened Cidr
  import opened BastionTypes

  const SSHPort: int := 22

  /** An `ec2types.IpPermission` without its free-text descriptions. The range
      lists are optional because EC2 tells an absent list from an empty one. */
  datatype Permission = Permission(
    protocol: string,
    fromPort: Option<int>,
    toPort: Option<int>,
    ipRanges: Option<seq<IpPrefix>>,
    ipv6Ranges: Option<seq<IpPrefix>>,
    groupPairs: seq<GroupId>)

  /** The CIDR text parser (`net.ParseCIDR`), kept abstract: the address as
      written and the prefix length, or nothing for malformed text. By
      convention IPv4 text ("10.1.2.3/8") gives a 4-byte address with an
      IPv4 prefix length, as the network `net.ParseCIDR` returns for it, and
      IPv6 text, the IPv4-mapped form ("::ffff:10.1.2.3/104") included,
      gives 16 bytes with an IPv6 prefix length. Go's own parsed address is
      16 bytes in both cases; `HasV4Form` accepts both widths, as `To4`
      does. */
  type Parser = string -> Option<IpPrefix>

  /** Rule equality: protocol, ports and the sets of address blocks and
      referenced groups; order and repetition do not matter and an absent
      range list equals an empty one. */
  predicate SamePermission(a: Permission, b: Permission)
  {
    && a.protocol == b.protocol
    && a.fromPort == b.fromPort
    && a.toPort == b.toPort
    && (set r | r in Elements(a.ipRanges)) == (set r | r in Elements(b.ipRanges))
    && (set r | r in Elements(a.ipv6Ranges)) == (set r | r in Elements(b.ipv6Ranges))
    && (set g | g in a.groupPairs) == (set g | g in b.groupPairs)
  }

  /** Whether some rule of `perms` equals `p`. */
  predicate HasPermission(perms: seq<Permission>, p: Permission)
  {
    exists q :: q in perms && SamePermission(q, p)
  }

  /** Rule equality is an equivalence relation. */
  lemma SamePermissionIsEquivalence(a: Permission, b: Permission, c: Permission)
    ensures SamePermission(a, a)
    ensures SamePermission(a, b) ==> SamePermission(b, a)
    ensures SamePermission(a, b) && SamePermission(b, c) ==> SamePermission(a, c)
  {
  }

  /** Rules that list the same blocks and groups, in any order and any
      number of times, are equal. */
  lemma SamePermissionIgnoresOrder(a: Permission, b: Permission)
    requires a.protocol == b.protocol && a.fromPort == b.fromPort && a.toPort == b.toPort
    requires forall r :: r in Elements(a.ipRanges) <==> r in Elements(b.ipRanges)
    requires forall r :: r in Elements(a.ipv6Ranges) <==> r in Elements(b.ipv6Ranges)
    requires forall g :: g in a.groupPairs <==> g in b.groupPairs
    ensures SamePermission(a, b)
  {
  }

  /** Repeating a block already listed keeps the rule equal. */
  lemma SamePermissionIgnoresRepeats(a: Permission, k: nat)
    requires k < |Elements(a.ipRanges)|
    ensures SamePermission(a, a.(ipRanges := Some(Elements(a.ipRanges) + [Elements(a.ipRanges)[k]])))
  {
    var xs := Elements(a.ipRanges);
    var ys := xs + [xs[k]];
    assert Elements(Some(ys)) == ys;
    assert forall r :: r in ys <==> r in xs;
  }

  /** Parses the declared CIDRs in order. The first malformed one aborts the
      whole list and is returned as the error. */
  function ParseIngress(parse: Parser, cidrs: seq<string>): (r: Result<seq<Block>, string>)
    ensures r.Success? <==> forall i :: 0 <= i < |cidrs| ==> parse(cidrs[i]).Some?
    ensures r.Success? ==>
              && |r.value| == |cidrs|
              && forall i :: 0 <= i < |cidrs| ==> r.value[i] == Classify(parse(cidrs[i]).value)
    ensures r.Failure? ==>
              exists i :: 0 <= i < |cidrs| && r.error == cidrs[i] && parse(cidrs[i]).None?
                          && forall j :: 0 <= j < i ==> parse(cidrs[j]).Some?
    decreases |cidrs|
  {
    if |cidrs| == 0 then Success([])
    else
      match parse(cidrs[0])
      case None => Failure(cidrs[0])
      case Some(p) =>
        match ParseIngress(parse, cidrs[1..])
        case Failure(e) =>
          ghost var i :| 0 <= i < |cidrs[1..]| && e == cidrs[1..][i] && parse(cidrs[1..][i]).None?
                         && forall j :: 0 <= j < i ==> parse(cidrs[1..][j]).Some?;
          assert cidrs[i + 1] == e;
          Failure(e)
        case Success(bs) => Success([Classify(p)] + bs)
  }

  /** The network forms of the blocks of one family, in order. */
  function Networks(bs: seq<Block>, family: Family): seq<IpPrefix>
  {
    if |bs| == 0 then []
    else (if bs[0].family == family then [bs[0].network] else []) + Networks(bs[1..], family)
  }

  /** How many blocks belong to a family. */
  function CountFamily(bs: seq<Block>, family: Family): nat
  {
    if |bs| == 0 then 0
    else (if bs[0].family == family then 1 else 0) + CountFamily(bs[1..], family)
  }

  /** An absent list in place of an empty one. */
  function NonEmpty(s: seq<IpPrefix>): Option<seq<IpPrefix>>
  {
    if |s| == 0 then None else Some(s)
  }

  /** The canonical SSH ingress rule for the declared CIDRs: IPv4 blocks in
      `ipRanges`, the others in `ipv6Ranges`, each list in declaration order
      and absent rather than empty. */
  function IngressPermission(parse: Parser, cidrs: seq<string>): (r: Result<Permission, string>)
    ensures r.Success? <==> forall i :: 0 <= i < |cidrs| ==> parse(cidrs[i]).Some?
    ensures r.Success? ==>
              && r.value.protocol == "tcp"
              && r.value.fromPort == Some(SSHPort) && r.value.toPort == Some(SSHPort)
              && r.value.groupPairs == []
              && (r.value.ipRanges.Some? ==> |r.value.ipRanges.value| > 0)
              && (r.value.ipv6Ranges.Some? ==> |r.value.ipv6Ranges.value| > 0)
    ensures r.Failure? ==>
              exists i :: 0 <= i < |cidrs| && r.error == cidrs[i] && parse(cidrs[i]).None?
                          && forall j :: 0 <= j < i ==> parse(cidrs[j]).Some?
  {
    match ParseIngress(parse, cidrs)
    case Failure(cidr) => Failure(cidr)
    case Success(blocks) =>
      Success(Permission("tcp", Some(SSHPort), Some(SSHPort),
                         NonEmpty(Networks(blocks, IPv4)), NonEmpty(Networks(blocks, IPv6)), []))
  }

  lemma {:induction false} NetworksLength(bs: seq<Block>, family: Family)
    ensures |Networks(bs, family)| == CountFamily(bs, family)
    decreases |bs|
  {
    if |bs| > 0 {
      NetworksLength(bs[1..], family);
    }
  }

  lemma {:induction false} CountFamiliesSum(bs: seq<Block>)
    ensures CountFamily(bs, IPv4) + CountFamily(bs, IPv6) == |bs|
    decreases |bs|
  {
    if |bs| > 0 {
      CountFamiliesSum(bs[1..]);
    }
  }

  /** Block `i` sits in its family's list right after the same-family blocks
      declared before it. */
  lemma {:induction false} NetworksPosition(bs: seq<Block>, i: nat)
    requires i < |bs|
    ensures CountFamily(bs[..i], bs[i].family) < |Networks(bs, bs[i].family)|
    ensures Networks(bs, bs[i].family)[CountFamily(bs[..i], bs[i].family)] == bs[i].network
    decreases i
  {
    var fam := bs[i].family;
    if i == 0 {
      assert bs[..0] == [];
    } else {
      NetworksPosition(bs[1..], i - 1);
      assert bs[1..][..i - 1] == bs[..i][1..];
      assert bs[1..][i - 1] == bs[i];
    }
  }

  /** Each declared CIDR yields exactly one range, in the list of its family,
      holding its network form, at the position given by the number of
      same-family CIDRs declared before it; the two lists hold nothing else. */
  lemma IngressRangesExact(parse: Parser, cidrs: seq<string>, i: nat)
    requires IngressPermission(parse, cidrs).Success?
    requires i < |cidrs|
    ensures var perm := IngressPermission(parse, cidrs).value;
            var blocks := ParseIngress(parse, cidrs).value;
            var p := parse(cidrs[i]).value;
            var ranges := if HasV4Form(p.addr) then Elements(perm.ipRanges) else Elements(perm.ipv6Ranges);
            var before := CountFamily(blocks[..i], blocks[i].family);
            && |Elements(perm.ipRanges)| + |Elements(perm.ipv6Ranges)| == |cidrs|
            && before < |ranges|
            && ranges[before] == NetworkText(p)
  {
    var blocks := ParseIngress(parse, cidrs).value;
    NetworksLength(blocks, IPv4);
    NetworksLength(blocks, IPv6);
    CountFamiliesSum(blocks);
    NetworksPosition(blocks, i);
  }

  /** An example normalisation: 10.1.2.3/8 yields the range 10.0.0.0/8. */
  lemma IngressNormalisesExample(parse: Parser)
    requires parse("10.1.2.3/8") == Some(IpPrefix([10, 1, 2, 3], 8))
    ensures IngressPermission(parse, ["10.1.2.3/8"])
            == Success(Permission("tcp", Some(SSHPort), Some(SSHPort),
                                  Some([IpPrefix([10, 0, 0, 0], 8)]), None, []))
  {
    var n := Network(IpPrefix([10, 1, 2, 3], 8));
    assert n.addr == [10, 0, 0, 0];
    var blocks := ParseIngress(parse, ["10.1.2.3/8"]).value;
    assert blocks == [Block(IPv4, n)];
    assert Networks(blocks, IPv4) == [n];
    assert Networks(blocks, IPv6) == [];
  }

  /** An IPv4 block written in its IPv4-mapped IPv6 spelling, with the
      prefix lengthened by 96, gives the same ingress rule as the plain
      spelling. */
  lemma MappedIngressMatchesV4(parse: Parser, mapped: string, plain: string, v4: seq<byte>, bits: nat)
    requires |v4| == 4 && bits >= 96
    requires parse(mapped) == Some(IpPrefix(V4InV6Prefix + v4, bits))
    requires parse(plain) == Some(IpPrefix(v4, bits - 96))
    ensures IngressPermission(parse, [mapped]) == IngressPermission(parse, [plain])
  {
    MappedSpellingMatchesV4(v4, bits);
    assert (V4InV6Prefix + v4)[..12] == V4InV6Prefix;
    assert Classify(IpPrefix(V4InV6Prefix + v4, bits)) == Classify(IpPrefix(v4, bits - 96));
    assert ParseIngress(parse, [mapped]) == ParseIngress(parse, [plain]);
  }

  /** The canonical egress rule: SSH to the worker security group only. */
  function EgressPermission(workerGroup: GroupId): (p: Permission)
    ensures p.protocol == "tcp" && p.fromPort == Some(SSHPort) && p.toPort == Some(SSHPort)
    ensures p.ipRanges.None? && p.ipv6Ranges.None? && p.groupPairs == [workerGroup]
  {
    Permission("tcp", Some(SSHPort), Some(SSHPort), None, None, [workerGroup])
  }

  /** The rule opened on the worker security group: SSH from the bastion's
      security group. */
  function WorkerPermission(opt: Options): Permission
  {
    Permission("tcp", Some(SSHPort), Some(SSHPort), None, None, [opt.bastionSecurityGroupId])
  }

  /** `xs` occurs in `ys` in order, possibly with gaps. */
  predicate Subsequence<T(==)>(xs: seq<T>, ys: seq<T>)
    decreases |ys|
  {
    if |xs| == 0 then true
    else if |ys| == 0 then false
    else if xs[0] == ys[0] then Subsequence(xs[1..], ys[1..])
    else Subsequence(xs, ys[1..])
  }

  /** The observed egress rules that differ from the canonical one, in
      observed order: the rules to revoke. */
  function ExtraEgress(egress: seq<Permission>, canonical: Permission): (r: seq<Permission>)
    ensures forall p :: p in r <==> p in egress && !SamePermission(p, canonical)
    // every occurrence of a differing rule is kept, each as often as observed
    ensures forall p :: multiset(r)[p] == if SamePermission(p, canonical) then 0 else multiset(egress)[p]
    ensures Subsequence(r, egress)
    ensures |r| == 0 <==> forall p :: p in egress ==> SamePermission(p, canonical)
    decreases |egress|
  {
    if |egress| == 0 then []
    else
      assert egress == [egress[0]] + egress[1..];
      if SamePermission(egress[0], canonical) then ExtraEgress(egress[1..], canonical)
      else [egress[0]] + ExtraEgress(egress[1..], canonical)
  }
}
