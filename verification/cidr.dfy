/** Address blocks in CIDR notation (RFC 4632 section 3.1, RFC 4291 section 2.3),
    reduced to what the bastion reconciler needs: the parsed address bytes,
    the prefix length, normalisation to the network address by clearing the
    host bits, the 4-byte form in which a mapped IPv4 network is written, and
    the address family decided once at parse time. */
module Cidr {

  type byte = bv8

  /** An address block as parsed from text: the address bytes (4 for IPv4,
      16 for IPv6) and the prefix length in bits. */
  datatype IpPrefix = IpPrefix(addr: seq<byte>, bits: nat)

  datatype Family = IPv4 | IPv6

  /** A parsed ingress block: its family, tagged once, and its network form. */
  datatype Block = Block(family: Family, network: IpPrefix)

  /** The byte whose `keep` leading bits are set. */
  function PrefixMask(keep: nat): byte
  {
    if keep == 0 then 0x00
    else if keep == 1 then 0x80
    else if keep == 2 then 0xC0
    else if keep == 3 then 0xE0
    else if keep == 4 then 0xF0
    else if keep == 5 then 0xF8
    else if keep == 6 then 0xFC
    else if keep == 7 then 0xFE
    else 0xFF
  }

  /** The byte with only bit `j` set, counting from the most significant bit. */
  function BitMask(j: nat): byte
    requires j < 8
  {
    if j == 0 then 0x80
    else if j == 1 then 0x40
    else if j == 2 then 0x20
    else if j == 3 then 0x10
    else if j == 4 then 0x08
    else if j == 5 then 0x04
    else if j == 6 then 0x02
    else 0x01
  }

  /** Bit `j` of `b`, counting from the most significant bit. */
  predicate BitOf(b: byte, j: nat)
    requires j < 8
  {
    b & BitMask(j) != 0
  }

  /** Bit `k` of an address, in network order: the most significant bit of
      the first byte is bit 0. */
  predicate Bit(addr: seq<byte>, k: nat)
    requires k < 8 * |addr|
  {
    BitOf(addr[k / 8], k % 8)
  }

  /** How many leading bits of byte `i` lie inside a prefix of `bits` bits. */
  function KeepBits(bits: nat, i: nat): nat
  {
    if bits <= 8 * i then 0
    else if bits - 8 * i >= 8 then 8
    else bits - 8 * i
  }

  /** Masking a byte keeps exactly its leading `keep` bits. */
  lemma MaskByteBit(b: byte, keep: nat, j: nat)
    requires keep <= 8 && j < 8
    ensures BitOf(b & PrefixMask(keep), j) <==> j < keep && BitOf(b, j)
  {
  }

  /** Two bytes with the same eight bits are equal. */
  lemma ByteFromBits(a: byte, b: byte)
    requires forall j :: 0 <= j < 8 ==> (BitOf(a, j) <==> BitOf(b, j))
    ensures a == b
  {
    assert BitOf(a, 0) <==> BitOf(b, 0);
    assert BitOf(a, 1) <==> BitOf(b, 1);
    assert BitOf(a, 2) <==> BitOf(b, 2);
    assert BitOf(a, 3) <==> BitOf(b, 3);
    assert BitOf(a, 4) <==> BitOf(b, 4);
    assert BitOf(a, 5) <==> BitOf(b, 5);
    assert BitOf(a, 6) <==> BitOf(b, 6);
    assert BitOf(a, 7) <==> BitOf(b, 7);
  }

  /** The network form of a block: the same prefix length, every bit inside
      the prefix kept and every host bit cleared ("1.2.3.4/8" becomes
      "1.0.0.0/8"). */
  function Network(p: IpPrefix): (n: IpPrefix)
    ensures n.bits == p.bits && |n.addr| == |p.addr|
    ensures forall k :: 0 <= k < 8 * |p.addr| ==>
              (Bit(n.addr, k) <==> k < p.bits && Bit(p.addr, k))
  {
    var masked := seq(|p.addr|, i requires 0 <= i < |p.addr| => p.addr[i] & PrefixMask(KeepBits(p.bits, i)));
    NetworkBits(p, masked);
    IpPrefix(masked, p.bits)
  }

  lemma NetworkBits(p: IpPrefix, masked: seq<byte>)
    requires |masked| == |p.addr|
    requires forall i :: 0 <= i < |p.addr| ==> masked[i] == p.addr[i] & PrefixMask(KeepBits(p.bits, i))
    ensures forall k :: 0 <= k < 8 * |p.addr| ==> (Bit(masked, k) <==> k < p.bits && Bit(p.addr, k))
  {
    forall k | 0 <= k < 8 * |p.addr|
      ensures Bit(masked, k) <==> k < p.bits && Bit(p.addr, k)
    {
      var i, j := k / 8, k % 8;
      assert k == 8 * i + j;
      MaskByteBit(p.addr[i], KeepBits(p.bits, i), j);
    }
  }

  /** Normalising twice is normalising once: a network-form block is its own
      network. */
  lemma NetworkIdempotent(p: IpPrefix)
    ensures Network(Network(p)) == Network(p)
  {
    var n := Network(p);
    var nn := Network(n);
    forall i | 0 <= i < |p.addr|
      ensures nn.addr[i] == n.addr[i]
    {
      forall j | 0 <= j < 8
        ensures BitOf(nn.addr[i], j) <==> BitOf(n.addr[i], j)
      {
        var k := 8 * i + j;
        assert k / 8 == i && k % 8 == j;
        assert Bit(nn.addr, k) <==> k < p.bits && Bit(n.addr, k);
      }
      ByteFromBits(nn.addr[i], n.addr[i]);
    }
  }

  /** Two blocks of the same length and prefix have the same network form
      exactly when they agree on every bit inside the prefix. */
  lemma SameNetworkIffPrefixAgrees(p: IpPrefix, q: IpPrefix)
    requires |p.addr| == |q.addr| && p.bits == q.bits
    ensures Network(p) == Network(q) <==>
            forall k :: 0 <= k < 8 * |p.addr| && k < p.bits ==> (Bit(p.addr, k) <==> Bit(q.addr, k))
  {
    var np, nq := Network(p), Network(q);
    if forall k :: 0 <= k < 8 * |p.addr| && k < p.bits ==> (Bit(p.addr, k) <==> Bit(q.addr, k)) {
      forall i | 0 <= i < |p.addr|
        ensures np.addr[i] == nq.addr[i]
      {
        forall j | 0 <= j < 8
          ensures BitOf(np.addr[i], j) <==> BitOf(nq.addr[i], j)
        {
          var k := 8 * i + j;
          assert k / 8 == i && k % 8 == j;
          assert Bit(np.addr, k) <==> Bit(nq.addr, k);
        }
        ByteFromBits(np.addr[i], nq.addr[i]);
      }
      assert np.addr == nq.addr;
    }
  }

  /** The twelve leading bytes of an IPv4-mapped IPv6 address (::ffff:a.b.c.d). */
  const V4InV6Prefix: seq<byte> := [0, 0, 0, 0, 0, 0, 0, 0, 0, 0, 0xFF, 0xFF]

  /** Whether an address has a 4-byte form: a 4-byte address, or a 16-byte
      IPv4-mapped IPv6 address. */
  predicate HasV4Form(addr: seq<byte>)
  {
    |addr| == 4 || (|addr| == 16 && addr[..12] == V4InV6Prefix)
  }

  /** An IPv4-mapped IPv6 block whose prefix covers the whole mapping
      prefix. Its network still has the mapping prefix, so it is written in
      the 4-byte form, with 96 fewer prefix bits. */
  predicate MappedV4Block(p: IpPrefix)
  {
    |p.addr| == 16 && p.addr[..12] == V4InV6Prefix && p.bits >= 96
  }

  /** Bit `k` of the last four bytes of a 16-byte address is bit `96 + k`
      of the whole address. */
  lemma TailBit(a: seq<byte>, k: nat)
    requires |a| == 16 && k < 32
    ensures Bit(a[12..], k) <==> Bit(a, 96 + k)
  {
    assert (96 + k) / 8 == 12 + k / 8 && (96 + k) % 8 == k % 8;
  }

  /** The normalised block as text writes it (`IPNet.String`): the 4-byte
      network of a mapped block, otherwise the network form itself. */
  function NetworkText(p: IpPrefix): (n: IpPrefix)
    ensures MappedV4Block(p) ==>
              && |n.addr| == 4 && n.bits == p.bits - 96
              && forall k :: 0 <= k < 32 ==> (Bit(n.addr, k) <==> k < n.bits && Bit(p.addr, 96 + k))
    ensures !MappedV4Block(p) ==> n == Network(p)
  {
    if MappedV4Block(p) then
      var nw := Network(p);
      assert forall k :: 0 <= k < 32 ==> (Bit(nw.addr[12..], k) <==> Bit(nw.addr, 96 + k)) by {
        forall k | 0 <= k < 32 ensures Bit(nw.addr[12..], k) <==> Bit(nw.addr, 96 + k) {
          TailBit(nw.addr, k);
        }
      }
      IpPrefix(nw.addr[12..], p.bits - 96)
    else Network(p)
  }

  /** The mapped spelling of an IPv4 block is written as that block's IPv4
      network: "::ffff:10.1.2.3/104" and "10.1.2.3/8" both give "10.0.0.0/8". */
  lemma MappedSpellingMatchesV4(v4: seq<byte>, bits: nat)
    requires |v4| == 4 && bits >= 96
    ensures NetworkText(IpPrefix(V4InV6Prefix + v4, bits)) == NetworkText(IpPrefix(v4, bits - 96))
  {
    var p := IpPrefix(V4InV6Prefix + v4, bits);
    assert p.addr[..12] == V4InV6Prefix;
    assert p.addr[12..] == v4;
    var a, b := NetworkText(p), Network(IpPrefix(v4, bits - 96));
    forall i | 0 <= i < 4
      ensures a.addr[i] == b.addr[i]
    {
      forall j | 0 <= j < 8
        ensures BitOf(a.addr[i], j) <==> BitOf(b.addr[i], j)
      {
        var k := 8 * i + j;
        assert k / 8 == i && k % 8 == j;
        TailBit(p.addr, k);
        assert Bit(a.addr, k) <==> Bit(b.addr, k);
      }
      ByteFromBits(a.addr[i], b.addr[i]);
    }
    assert a.addr == b.addr;
  }

  /** Tags a parsed block with its family, judged on the address as written,
      and normalises it to its network form as text writes it. */
  function Classify(p: IpPrefix): (b: Block)
    ensures b.family == IPv4 <==> HasV4Form(p.addr)
    ensures b.network == NetworkText(p)
  {
    Block(if HasV4Form(p.addr) then IPv4 else IPv6, NetworkText(p))
  }
}
