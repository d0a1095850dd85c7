/** Reading and rewriting IP packets: lengths, endpoints, flow keys and the two NAT rewrites. */
module Packets {
  import opened Net
  import opened TrackerModel

  /** A capture address: the outbound and loopback bits of its flag word (bits 17 and 18), the
      interface, and all the rest, which the program carries along untouched. */
  datatype Address = Address(outbound: bool, loopback: bool, ifIdx: nat, subIfIdx: nat, rest: Bytes)

  const FIN := 0x01
  const SYN := 0x02
  const RST := 0x04
  const ACK := 0x10

  /** Whether the bits of a one-bit `mask` are set in a flag byte. */
  predicate Has(flags: Byte, mask: int)
    requires mask in {FIN, SYN, RST, ACK}
  {
    flags / mask % 2 == 1
  }

  predicate IsConnectionStart(flags: Byte) {
    Has(flags, SYN) && !Has(flags, ACK)
  }

  predicate IsClosing(flags: Byte) {
    Has(flags, FIN) || Has(flags, RST)
  }

  // ---------------------------------------------------------------- packet length

  datatype PacketError = EmptyPacket | ShortHeader | BadLength | UnknownVersion

  datatype LengthResult = Length(n: nat) | Bad(error: PacketError)

  function Version(pkt: Bytes): nat
    requires |pkt| >= 1
  {
    pkt[0] / 0x10
  }

  /** The length of the packet at the front of `buf`, as its own header states it. */
  function PacketLen(buf: Bytes): (r: LengthResult)
    ensures r.Length? ==> 20 <= r.n <= |buf|
  {
    if |buf| < 1 then Bad(EmptyPacket)
    else if Version(buf) == 4 then
      if |buf| < 20 then Bad(ShortHeader)
      else
        var n := U16(buf, 2);
        if n < 20 || n > |buf| then Bad(BadLength) else Length(n)
    else if Version(buf) == 6 then
      if |buf| < 40 then Bad(ShortHeader)
      else
        var n := 40 + U16(buf, 4) as int;
        if n < 40 || n > |buf| then Bad(BadLength) else Length(n)
    else Bad(UnknownVersion)
  }

  // ---------------------------------------------------------------- TCP headers

  function HeaderLen(pkt: Bytes): nat
    requires |pkt| >= 1
  {
    pkt[0] % 0x10 * 4
  }

  /** An IPv4 packet whose options and whole 20-byte TCP header are there. */
  predicate FullTcp4(pkt: Bytes) {
    && |pkt| >= 20 && Version(pkt) == 4
    && HeaderLen(pkt) >= 20
    && pkt[9] == 6
    && |pkt| >= HeaderLen(pkt) + 20
  }

  predicate FullTcp6(pkt: Bytes) {
    |pkt| >= 60 && Version(pkt) == 6 && pkt[6] == 6
  }

  predicate FullTcp(pkt: Bytes) {
    FullTcp4(pkt) || FullTcp6(pkt)
  }

  function TcpOffset(pkt: Bytes): (i: nat)
    requires FullTcp(pkt)
    ensures 20 <= i && i + 20 <= |pkt|
  {
    if FullTcp4(pkt) then HeaderLen(pkt) else 40
  }

  function FlagsOf(pkt: Bytes): Byte
    requires FullTcp(pkt)
  {
    pkt[TcpOffset(pkt) + 13]
  }

  function SrcPort(pkt: Bytes): Port
    requires FullTcp(pkt)
  {
    U16(pkt, TcpOffset(pkt))
  }

  function DstPort(pkt: Bytes): Port
    requires FullTcp(pkt)
  {
    U16(pkt, TcpOffset(pkt) + 2)
  }

  /** The IPv4 address at offset `i`. */
  function Ip4At(pkt: Bytes, i: nat): Ip4
    requires i + 4 <= |pkt|
  {
    pkt[i..i + 4]
  }

  /** Source and destination of an IPv4 TCP packet. */
  function Endpoints(pkt: Bytes): OrigFlow
    requires FullTcp4(pkt)
  {
    OrigFlow(pkt[12..16], SrcPort(pkt), pkt[16..20], DstPort(pkt))
  }

  // ---------------------------------------------------------------- flow keys

  type Ip16 = s: Bytes | |s| == 16 witness [0, 0, 0, 0, 0, 0, 0, 0, 0, 0, 0, 0, 0, 0, 0, 0]

  /** The IPv6 address at offset `i`. */
  function Ip16At(pkt: Bytes, i: nat): Ip16
    requires i + 16 <= |pkt|
  {
    pkt[i..i + 16]
  }

  datatype FlowKey = FlowKey(srcIP: Ip16, dstIP: Ip16, srcPort: Port, dstPort: Port, ver: nat)

  const PADDING: Bytes := [0, 0, 0, 0, 0, 0, 0, 0, 0, 0, 0, 0]

  /** The little-endian 32-bit number at offset `i`. */
  function Le32(b: Bytes, i: nat): (v: int)
    requires i + 4 <= |b|
    ensures 0 <= v < 0x1_0000_0000
  {
    b[i] as int + b[i + 1] as int * 0x100 + b[i + 2] as int * 0x1_0000 + b[i + 3] as int * 0x100_0000
  }

  function SplitLe32(v: int): Ip4
    requires 0 <= v < 0x1_0000_0000
  {
    [v % 0x100, v / 0x100 % 0x100, v / 0x1_0000 % 0x100, v / 0x100_0000]
  }

  /** The IPv4 key: each address in the first four of sixteen bytes. */
  function FlowKeyV4(src: int, dst: int, srcPort: Port, dstPort: Port): FlowKey
    requires 0 <= src < 0x1_0000_0000 && 0 <= dst < 0x1_0000_0000
  {
    FlowKey(SplitLe32(src) + PADDING, SplitLe32(dst) + PADDING, srcPort, dstPort, 4)
  }

  function KeyOf(pkt: Bytes): FlowKey
    requires FullTcp(pkt)
  {
    if FullTcp4(pkt) then FlowKeyV4(Le32(pkt, 12), Le32(pkt, 16), SrcPort(pkt), DstPort(pkt))
    else FlowKey(pkt[8..24], pkt[24..40], SrcPort(pkt), DstPort(pkt), 6)
  }

  /** The original flow an IPv4 key stands for. */
  function FlowOf(key: FlowKey): OrigFlow {
    OrigFlow(key.srcIP[..4], key.srcPort, key.dstIP[..4], key.dstPort)
  }

  /** Keys the IPv4 path builds, and no others. */
  predicate IsV4Key(key: FlowKey) {
    key.ver == 4 && key.srcIP[4..] == PADDING && key.dstIP[4..] == PADDING
  }

  lemma {:induction false} Le32Parts(a: Byte, b: Byte, c: Byte, d: Byte)
    ensures var v := a as int + b as int * 0x100 + c as int * 0x1_0000 + d as int * 0x100_0000;
      && v % 0x100 == a && v / 0x100 % 0x100 == b && v / 0x1_0000 % 0x100 == c && v / 0x100_0000 == d
  {
    var v := a as int + b as int * 0x100 + c as int * 0x1_0000 + d as int * 0x100_0000;
    assert v / 0x100 == b as int + c as int * 0x100 + d as int * 0x1_0000;
    assert v / 0x1_0000 == c as int + d as int * 0x100;
  }

  lemma {:induction false} Le32RoundTrip(b: Bytes, i: nat)
    requires i + 4 <= |b|
    ensures SplitLe32(Le32(b, i)) == b[i..i + 4]
  {
    Le32Parts(b[i], b[i + 1], b[i + 2], b[i + 3]);
  }

  /** The key of an IPv4 packet and its original flow determine each other. */
  lemma {:induction false} KeyMeansEndpoints(pkt: Bytes)
    requires FullTcp4(pkt)
    ensures IsV4Key(KeyOf(pkt)) && FlowOf(KeyOf(pkt)) == Endpoints(pkt)
  {
    Le32RoundTrip(pkt, 12);
    Le32RoundTrip(pkt, 16);
  }

  lemma {:induction false} V4KeysAreFlows(a: FlowKey, b: FlowKey)
    requires IsV4Key(a) && IsV4Key(b)
    ensures a == b <==> FlowOf(a) == FlowOf(b)
  {
    assert a.srcIP == a.srcIP[..4] + a.srcIP[4..] && b.srcIP == b.srcIP[..4] + b.srcIP[4..];
    assert a.dstIP == a.dstIP[..4] + a.dstIP[4..] && b.dstIP == b.dstIP[..4] + b.dstIP[4..];
  }

  lemma {:induction false} KeysCarryVersion(pkt: Bytes)
    requires FullTcp(pkt)
    ensures KeyOf(pkt).ver == Version(pkt)
  {
  }

  /** Two packets share a key exactly when they are of one IP version and their addresses and ports
      agree: an IPv4 and an IPv6 flow never collide in the policy table. */
  lemma {:induction false} KeysNeverCollide(a: Bytes, b: Bytes)
    requires FullTcp(a) && FullTcp(b)
    ensures KeyOf(a) == KeyOf(b) <==>
      && Version(a) == Version(b) && SrcPort(a) == SrcPort(b) && DstPort(a) == DstPort(b)
      && (if Version(a) == 4 then a[12..20] == b[12..20] else a[8..40] == b[8..40])
  {
    if Version(a) != Version(b) {
      KeysCarryVersion(a);
      KeysCarryVersion(b);
    } else if Version(a) == 4 {
      V4KeysNeverCollide(a, b);
    } else {
      V6KeysNeverCollide(a, b);
    }
  }

  lemma {:induction false} V4KeysNeverCollide(a: Bytes, b: Bytes)
    requires FullTcp4(a) && FullTcp4(b)
    ensures KeyOf(a) == KeyOf(b) <==> SrcPort(a) == SrcPort(b) && DstPort(a) == DstPort(b) && a[12..20] == b[12..20]
  {
    KeyMeansEndpoints(a);
    KeyMeansEndpoints(b);
    V4KeysAreFlows(KeyOf(a), KeyOf(b));
    HalvesDetermine(a, b, 12, 16, 20);
  }

  lemma {:induction false} V6KeysNeverCollide(a: Bytes, b: Bytes)
    requires FullTcp6(a) && FullTcp6(b)
    ensures KeyOf(a) == KeyOf(b) <==> SrcPort(a) == SrcPort(b) && DstPort(a) == DstPort(b) && a[8..40] == b[8..40]
  {
    HalvesDetermine(a, b, 8, 24, 40);
  }

  lemma {:induction false} HalvesDetermine(a: Bytes, b: Bytes, lo: nat, mid: nat, hi: nat)
    requires lo <= mid <= hi <= |a| && hi <= |b|
    ensures a[lo..hi] == b[lo..hi] <==> a[lo..mid] == b[lo..mid] && a[mid..hi] == b[mid..hi]
  {
    assert a[lo..hi] == a[lo..mid] + a[mid..hi] && b[lo..hi] == b[lo..mid] + b[mid..hi];
    assert a[lo..hi][..mid - lo] == a[lo..mid] && a[lo..hi][mid - lo..] == a[mid..hi];
    assert b[lo..hi][..mid - lo] == b[lo..mid] && b[lo..hi][mid - lo..] == b[mid..hi];
  }

  // ---------------------------------------------------------------- rewriting

  /** `pkt` with its four endpoint fields replaced. */
  function WithEndpoints(pkt: Bytes, ends: OrigFlow): Bytes
    requires FullTcp4(pkt)
  {
    var ihl := HeaderLen(pkt);
    Patch(Patch(Patch(Patch(pkt, 12, ends.srcIP), 16, ends.dstIP), ihl, PutU16(ends.srcPort)),
          ihl + 2, PutU16(ends.dstPort))
  }

  /** Where a hijacked packet goes: from its mapped loopback port to the local proxy. */
  function ToProxy(mapped: Port, tproxy: Port): OrigFlow {
    OrigFlow(LOOPBACK, mapped, LOOPBACK, tproxy)
  }

  function Swap(ends: OrigFlow): OrigFlow {
    OrigFlow(ends.dstIP, ends.dstPort, ends.srcIP, ends.srcPort)
  }

  function HijackedAddr(addr: Address): Address {
    addr.(outbound := true, loopback := true)
  }

  /** A reply goes out through the interface its flow came in by; only a loopback client keeps it on
      the loopback path. */
  function ReversedAddr(addr: Address, target: ConnTarget): Address {
    var local := target.flow.srcIP[0] == 127;
    Address(local, local, target.ifIdx, target.subIfIdx, addr.rest)
  }

  /** The bytes the checksum helper stores: the IPv4 header checksum and the TCP checksum. */
  datatype Sums = Sums(ip: Port, tcp: Port)

  function WithSums(pkt: Bytes, sums: Sums): Bytes
    requires FullTcp4(pkt)
  {
    Patch(Patch(pkt, 10, PutU16(sums.ip)), HeaderLen(pkt) + 16, PutU16(sums.tcp))
  }

  /** Equal but for checksum bytes. */
  predicate SameButSums(a: Bytes, b: Bytes)
    requires FullTcp4(a)
  {
    && |a| == |b|
    && forall i :: 0 <= i < |a| && i !in {10, 11, HeaderLen(a) + 16, HeaderLen(a) + 17} ==> a[i] == b[i]
  }

  /** The offsets of the endpoint fields. */
  predicate IsEndpointByte(pkt: Bytes, i: int)
    requires |pkt| >= 1
  {
    12 <= i < 20 || HeaderLen(pkt) <= i < HeaderLen(pkt) + 4
  }

  lemma {:induction false} RewriteKeepsRest(pkt: Bytes, ends: OrigFlow)
    requires FullTcp4(pkt)
    ensures var r := WithEndpoints(pkt, ends);
      && |r| == |pkt|
      && forall i :: 0 <= i < |pkt| && !IsEndpointByte(pkt, i) ==> r[i] == pkt[i]
  {
    hide PutU16;
  }

  lemma {:induction false} RewriteSetsEndpoints(pkt: Bytes, ends: OrigFlow)
    requires FullTcp4(pkt)
    ensures var r, ihl := WithEndpoints(pkt, ends), HeaderLen(pkt);
      && |r| == |pkt| && r[12..16] == ends.srcIP && r[16..20] == ends.dstIP
      && r[ihl..ihl + 2] == PutU16(ends.srcPort) && r[ihl + 2..ihl + 4] == PutU16(ends.dstPort)
  {
    hide PutU16;
    var r := WithEndpoints(pkt, ends);
    var ihl := HeaderLen(pkt);
    assert r[12..16] == ends.srcIP;
    assert r[16..20] == ends.dstIP;
    assert r[ihl..ihl + 2] == PutU16(ends.srcPort);
  }

  lemma {:induction false} PortWritten(b: Bytes, i: nat, port: Port)
    requires i + 2 <= |b| && b[i..i + 2] == PutU16(port)
    ensures U16(b, i) == port
  {
    hide PutU16;
    assert U16(b, i) == U16(b[i..i + 2], 0);
  }

  /** For any header length: the endpoints become `ends`, and no other byte changes. */
  lemma {:induction false} RewriteIsExact(pkt: Bytes, ends: OrigFlow)
    requires FullTcp4(pkt)
    ensures var r := WithEndpoints(pkt, ends);
      && |r| == |pkt| && FullTcp4(r) && HeaderLen(r) == HeaderLen(pkt)
      && Endpoints(r) == ends
      && FlagsOf(r) == FlagsOf(pkt)
      && forall i :: 0 <= i < |pkt| && !IsEndpointByte(pkt, i) ==> r[i] == pkt[i]
  {
    hide WithEndpoints, PutU16, U16;
    var r, ihl := WithEndpoints(pkt, ends), HeaderLen(pkt);
    RewriteKeepsRest(pkt, ends);
    RewriteSetsEndpoints(pkt, ends);
    assert !IsEndpointByte(pkt, 0) && r[0] == pkt[0];
    assert !IsEndpointByte(pkt, 9) && r[9] == pkt[9];
    assert !IsEndpointByte(pkt, ihl + 13) && r[ihl + 13] == pkt[ihl + 13];
    PortWritten(r, ihl, ends.srcPort);
    PortWritten(r, ihl + 2, ends.dstPort);
  }

  lemma {:induction false} SumsAreExact(pkt: Bytes, sums: Sums)
    requires FullTcp4(pkt)
    ensures var r := WithSums(pkt, sums);
      && |r| == |pkt| && FullTcp4(r) && HeaderLen(r) == HeaderLen(pkt)
      && Endpoints(r) == Endpoints(pkt) && FlagsOf(r) == FlagsOf(pkt)
      && SameButSums(pkt, r)
      && U16(r, 10) == sums.ip && U16(r, HeaderLen(pkt) + 16) == sums.tcp
  {
    var r := WithSums(pkt, sums);
    assert r[12..16] == pkt[12..16];
    assert r[16..20] == pkt[16..20];
  }

  /** A packet on its way to the local proxy. */
  function Hijacked(pkt: Bytes, port: Port, tproxy: Port, sums: Sums): (r: Bytes)
    requires FullTcp4(pkt)
    ensures |r| == |pkt|
  {
    RewriteIsExact(pkt, ToProxy(port, tproxy));
    WithSums(WithEndpoints(pkt, ToProxy(port, tproxy)), sums)
  }

  /** A reply of the local proxy on its way back to the client. */
  function Reversed(pkt: Bytes, target: ConnTarget, sums: Sums): (r: Bytes)
    requires FullTcp4(pkt)
    ensures |r| == |pkt|
  {
    RewriteIsExact(pkt, Swap(target.flow));
    WithSums(WithEndpoints(pkt, Swap(target.flow)), sums)
  }

  /** What rewriting leaves alone: everything but the endpoint fields and the two checksums. */
  predicate SameElsewhere(a: Bytes, b: Bytes)
    requires FullTcp4(a)
  {
    && |a| == |b|
    && forall i :: 0 <= i < |a| && !IsEndpointByte(a, i) && i !in {10, 11, HeaderLen(a) + 16, HeaderLen(a) + 17} ==>
         a[i] == b[i]
  }

  lemma {:induction false} RewritingIsNat(pkt: Bytes, ends: OrigFlow, sums: Sums)
    requires FullTcp4(pkt)
    ensures FullTcp4(WithEndpoints(pkt, ends))
    ensures var r := WithSums(WithEndpoints(pkt, ends), sums);
      && FullTcp4(r) && HeaderLen(r) == HeaderLen(pkt) && Endpoints(r) == ends && FlagsOf(r) == FlagsOf(pkt)
      && SameElsewhere(pkt, r)
      && U16(r, 10) == sums.ip && U16(r, HeaderLen(pkt) + 16) == sums.tcp
  {
    hide WithEndpoints, WithSums;
    RewriteIsExact(pkt, ends);
    SumsAreExact(WithEndpoints(pkt, ends), sums);
  }

  /** NAT duality. Hijack a packet of some flow to port `m`; let the proxy answer on that connection
      with any packet, of whatever header length and content; reverse it with the mapping of `m`. The
      answer comes from the flow's destination and goes to its source, and nothing but endpoints and
      checksums of either packet has been touched. */
  lemma {:induction false} NatDuality(
      pkt: Bytes, m: Port, tproxy: Port, sums: Sums, reply: Bytes, target: ConnTarget, back: Sums)
    requires FullTcp4(pkt) && FullTcp4(reply)
    requires target.flow == Endpoints(pkt)
    requires var out := Hijacked(pkt, m, tproxy, sums); FullTcp4(out) && Endpoints(reply) == Swap(Endpoints(out))
    ensures reply[16..20] == LOOPBACK && DstPort(reply) == m && SrcPort(reply) == tproxy
    ensures SameElsewhere(pkt, Hijacked(pkt, m, tproxy, sums))
    ensures var r := Reversed(reply, target, back);
      FullTcp4(r) && Endpoints(r) == Swap(Endpoints(pkt)) && SameElsewhere(reply, r)
  {
    RewritingIsNat(pkt, ToProxy(m, tproxy), sums);
    RewritingIsNat(reply, Swap(target.flow), back);
    assert Endpoints(reply) == OrigFlow(LOOPBACK, tproxy, LOOPBACK, m);
  }
}