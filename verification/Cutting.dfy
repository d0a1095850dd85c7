/** Cutting a gap-free buffer into the packets whose headers state their own lengths, as the program does
    with what it receives and the driver does with what it is given to send. */
module Cutting {
  import opened Net
  import opened Packets
  import opened TrackerModel

  /** What a buffer is cut into, and whether it is used up together with the addresses. */
  datatype Pieces = Pieces(pkts: seq<Bytes>, ok: bool)

  function Split(buf: Bytes, count: nat): (r: Pieces)
    ensures |r.pkts| <= count
    decreases count
  {
    if count == 0 || buf == [] then Pieces([], buf == [] && count == 0)
    else
      var len := PacketLen(buf);
      if len.Bad? then Pieces([], false)
      else
        var rest := Split(buf[len.n..], count - 1);
        Pieces([buf[..len.n]] + rest.pkts, rest.ok)
  }

  /** A packet whose header states its length. */
  predicate SelfDelimited(pkt: Bytes) {
    PacketLen(pkt) == Length(|pkt|)
  }

  ghost predicate AllDelimited(pkts: seq<Bytes>) {
    forall p <- pkts :: SelfDelimited(p)
  }

  predicate FitsIpv4(low: nat, rest: Bytes) {
    low < 0x10 && 16 <= |rest| && |rest| + 4 < 0x1_0000
  }

  predicate FitsIpv6(low: nat, tag: Bytes, header: Bytes, payload: Bytes) {
    low < 0x10 && |tag| == 3 && |header| == 34 && |payload| < 0x1_0000
  }

  /** An IPv4 packet of `4 + |rest|` bytes: version and header length, type of service, total length. */
  function Ipv4Packet(low: nat, tos: Byte, rest: Bytes): Bytes
    requires FitsIpv4(low, rest)
  {
    [0x40 + low, tos] + PutU16(4 + |rest|) + rest
  }

  /** An IPv6 packet: version, class and flow label, payload length, the remaining header, and the payload. */
  function Ipv6Packet(low: nat, tag: Bytes, header: Bytes, payload: Bytes): Bytes
    requires FitsIpv6(low, tag, header, payload)
  {
    [0x60 + low] + tag + PutU16(|payload|) + header + payload
  }

  ghost predicate IsIpv4Packet(pkt: Bytes) {
    exists low: nat, tos: Byte, rest: Bytes :: FitsIpv4(low, rest) && pkt == Ipv4Packet(low, tos, rest)
  }

  ghost predicate IsIpv6Packet(pkt: Bytes) {
    exists low: nat, tag: Bytes, header: Bytes, payload: Bytes ::
      FitsIpv6(low, tag, header, payload) && pkt == Ipv6Packet(low, tag, header, payload)
  }

  lemma {:induction false} Ipv4IsDelimited(low: nat, tos: Byte, rest: Bytes)
    requires FitsIpv4(low, rest)
    ensures SelfDelimited(Ipv4Packet(low, tos, rest))
  {
    hide PutU16;
    var pkt := Ipv4Packet(low, tos, rest);
    assert pkt[2..4] == PutU16(4 + |rest|);
    assert U16(pkt, 2) == U16(pkt[2..4], 0);
  }

  lemma {:induction false} Ipv6IsDelimited(low: nat, tag: Bytes, header: Bytes, payload: Bytes)
    requires FitsIpv6(low, tag, header, payload)
    ensures SelfDelimited(Ipv6Packet(low, tag, header, payload))
  {
    hide PutU16;
    var pkt := Ipv6Packet(low, tag, header, payload);
    assert pkt[4..6] == PutU16(|payload|);
    assert U16(pkt, 4) == U16(pkt[4..6], 0);
  }

  lemma {:induction false} LengthFieldIsLength(pkt: Bytes, i: nat, n: Port)
    requires i + 2 <= |pkt| && U16(pkt, i) == n
    ensures pkt[i..i + 2] == PutU16(n)
  {
  }

  lemma {:induction false} Ipv4IsLaidOut(pkt: Bytes)
    requires SelfDelimited(pkt) && Version(pkt) == 4
    ensures IsIpv4Packet(pkt)
  {
    hide PutU16;
    LengthFieldIsLength(pkt, 2, |pkt|);
    assert pkt == [pkt[0], pkt[1]] + pkt[2..4] + pkt[4..];
    assert FitsIpv4(pkt[0] % 0x10, pkt[4..]) && pkt == Ipv4Packet(pkt[0] % 0x10, pkt[1], pkt[4..]);
  }

  lemma {:induction false} Ipv6IsLaidOut(pkt: Bytes)
    requires SelfDelimited(pkt) && Version(pkt) == 6
    ensures IsIpv6Packet(pkt)
  {
    hide PutU16;
    LengthFieldIsLength(pkt, 4, |pkt| - 40);
    assert pkt == [pkt[0]] + pkt[1..4] + pkt[4..6] + pkt[6..40] + pkt[40..];
    assert FitsIpv6(pkt[0] % 0x10, pkt[1..4], pkt[6..40], pkt[40..])
        && pkt == Ipv6Packet(pkt[0] % 0x10, pkt[1..4], pkt[6..40], pkt[40..]);
  }

  /** Packets laid out by section 3.1 of RFC 791 or section 3 of RFC 8200 are the self-delimited ones. */
  lemma {:induction false} DelimitedIffLaidOut(pkt: Bytes)
    ensures SelfDelimited(pkt) <==> IsIpv4Packet(pkt) || IsIpv6Packet(pkt)
  {
    hide Ipv4Packet, Ipv6Packet, FitsIpv4, FitsIpv6;
    if IsIpv4Packet(pkt) {
      var low: nat, tos: Byte, rest: Bytes :| FitsIpv4(low, rest) && pkt == Ipv4Packet(low, tos, rest);
      Ipv4IsDelimited(low, tos, rest);
    }
    if IsIpv6Packet(pkt) {
      var low: nat, tag: Bytes, header: Bytes, payload: Bytes :|
        FitsIpv6(low, tag, header, payload) && pkt == Ipv6Packet(low, tag, header, payload);
      Ipv6IsDelimited(low, tag, header, payload);
    }
    if SelfDelimited(pkt) {
      if Version(pkt) == 4 {
        Ipv4IsLaidOut(pkt);
      } else {
        Ipv6IsLaidOut(pkt);
      }
    }
  }

  /** Finding a packet's length looks no further than the packet. */
  lemma {:induction false} LengthIsLocal(pkt: Bytes, rest: Bytes)
    ensures SelfDelimited(pkt) ==> PacketLen(pkt + rest) == Length(|pkt|)
  {
    if SelfDelimited(pkt) {
      assert forall i :: 0 <= i < |pkt| ==> (pkt + rest)[i] == pkt[i];
    }
  }

  lemma {:induction false} FrontIsDelimited(buf: Bytes)
    requires PacketLen(buf).Length?
    ensures SelfDelimited(buf[..PacketLen(buf).n])
  {
  }

  /** Packets put end to end are cut apart again. */
  lemma {:induction false} SplitUndoesJoin(pkts: seq<Bytes>)
    requires AllDelimited(pkts)
    ensures Split(Join(pkts), |pkts|) == Pieces(pkts, true)
    decreases |pkts|
  {
    if pkts != [] {
      var rest := Join(pkts[1..]);
      SplitUndoesJoin(pkts[1..]);
      LengthIsLocal(pkts[0], rest);
      assert SelfDelimited(pkts[0]);
      assert (pkts[0] + rest)[..|pkts[0]|] == pkts[0] && (pkts[0] + rest)[|pkts[0]|..] == rest;
    }
  }

  /** Where cutting stops: at the end of both buffer and addresses, or at the first place where one of
      them has run out, or no whole packet follows. */
  ghost predicate Stuck(rest: Bytes, left: nat) {
    (left == 0 && rest != []) || (left > 0 && rest == []) || (left > 0 && rest != [] && PacketLen(rest).Bad?)
  }

  lemma {:induction false} SplitCutsFromFront(buf: Bytes, count: nat)
    ensures var r := Split(buf, count);
      && AllDelimited(r.pkts) && Join(r.pkts) <= buf
      && (r.ok ==> Join(r.pkts) == buf && |r.pkts| == count)
      && (!r.ok ==> Stuck(buf[|Join(r.pkts)|..], count - |r.pkts|))
    decreases count
  {
    hide PacketLen, SelfDelimited;
    if count > 0 && buf != [] && PacketLen(buf).Length? {
      var n := PacketLen(buf).n;
      var rest := Split(buf[n..], count - 1);
      SplitCutsFromFront(buf[n..], count - 1);
      FrontIsDelimited(buf);
      var r := Split(buf, count);
      assert r.pkts[1..] == rest.pkts;
      assert Join(r.pkts) == buf[..n] + Join(rest.pkts);
      assert buf == buf[..n] + buf[n..];
      assert buf[|Join(r.pkts)|..] == buf[n..][|Join(rest.pkts)|..];
    }
  }

  /** Cutting succeeds exactly on buffers that are `count` self-delimited packets end to end, and there
      is only one way to see a buffer so. */
  lemma {:induction false} SplitIffJoin(buf: Bytes, count: nat)
    ensures Split(buf, count).ok <==> exists pkts :: |pkts| == count && AllDelimited(pkts) && Join(pkts) == buf
    ensures forall pkts :: |pkts| == count && AllDelimited(pkts) && Join(pkts) == buf ==> pkts == Split(buf, count).pkts
  {
    SplitCutsFromFront(buf, count);
    forall pkts: seq<Bytes> | |pkts| == count && AllDelimited(pkts) && Join(pkts) == buf
      ensures Split(buf, count) == Pieces(pkts, true)
    {
      SplitUndoesJoin(pkts);
    }
    if Split(buf, count).ok {
      var pkts := Split(buf, count).pkts;
      assert |pkts| == count && AllDelimited(pkts) && Join(pkts) == buf;
    }
  }

  // ---------------------------------------------------------------- rewriting keeps packets apart

  /** A packet rewritten in its endpoints and checksums still states its length. */
  lemma {:induction false} RewrittenIsDelimited(pkt: Bytes, r: Bytes)
    requires FullTcp4(pkt) && SelfDelimited(pkt) && SameElsewhere(pkt, r)
    ensures SelfDelimited(r)
  {
    assert !IsEndpointByte(pkt, 0) && r[0] == pkt[0];
    assert !IsEndpointByte(pkt, 2) && r[2] == pkt[2];
    assert !IsEndpointByte(pkt, 3) && r[3] == pkt[3];
  }

  lemma {:induction false} HijackedIsDelimited(pkt: Bytes, port: Port, tproxy: Port, sums: Sums)
    requires FullTcp4(pkt) && SelfDelimited(pkt)
    ensures SelfDelimited(Hijacked(pkt, port, tproxy, sums))
  {
    hide WithSums, WithEndpoints, SameElsewhere, SelfDelimited;
    RewritingIsNat(pkt, ToProxy(port, tproxy), sums);
    RewrittenIsDelimited(pkt, Hijacked(pkt, port, tproxy, sums));
  }

  lemma {:induction false} ReversedIsDelimited(pkt: Bytes, target: ConnTarget, sums: Sums)
    requires FullTcp4(pkt) && SelfDelimited(pkt)
    ensures SelfDelimited(Reversed(pkt, target, sums))
  {
    hide WithSums, WithEndpoints, SameElsewhere, SelfDelimited;
    RewritingIsNat(pkt, Swap(target.flow), sums);
    RewrittenIsDelimited(pkt, Reversed(pkt, target, sums));
  }
}
