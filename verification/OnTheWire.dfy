/** What becomes of packets, read off their bytes as RFC 791, RFC 8200 and RFC 9293 lay them out: which packets
    may open or end a connection, which ones the program leaves alone, and what those look like that it changes. */
module OnTheWire {
  import opened Net
  import opened Histories
  import opened Packets
  import opened TrackerModel
  import opened PolicyModel
  import opened PacketLoop
  import opened LoopInvariants
  import opened RouteSafety
  import opened LiveFlows
  import opened Handling
  import T = TrackerProofs

  // ---------------------------------------------------------------- the bytes that matter

  /** An IPv4 packet with its options and all 20 bytes of a TCP header. */
  predicate IsTcp4(pkt: Bytes) {
    |pkt| >= 20 && pkt[0] / 16 == 4 && pkt[0] % 16 >= 5 && pkt[9] == 6 && |pkt| >= pkt[0] % 16 * 4 + 20
  }

  /** The same for IPv6, without extension headers. */
  predicate IsTcp6(pkt: Bytes) {
    |pkt| >= 60 && pkt[0] / 16 == 6 && pkt[6] == 6
  }

  /** Byte 13 of the TCP header. */
  function FlagByte(pkt: Bytes): bv8
    requires IsTcp4(pkt) || IsTcp6(pkt)
  {
    if IsTcp4(pkt) then pkt[pkt[0] % 16 * 4 + 13] as bv8 else pkt[53] as bv8
  }

  /** SYN is set, and none of ACK, RST and FIN. */
  predicate IsPureSyn(pkt: Bytes) {
    (IsTcp4(pkt) || IsTcp6(pkt)) && FlagByte(pkt) & 0x17 == 0x02
  }

  /** FIN or RST is set. */
  predicate HasFinOrRst(pkt: Bytes) {
    (IsTcp4(pkt) || IsTcp6(pkt)) && FlagByte(pkt) & 0x05 != 0
  }

  /** A TCP packet for the outside world: not from the local proxy, not to the upstream proxy, and not to a
      private address. */
  predicate IsGoverned(pkt: Bytes, cfg: Config) {
    || (&& IsTcp4(pkt) && U16(pkt, pkt[0] % 16 * 4) != cfg.tproxy
        && cfg.upstream != Some(pkt[16..20]) && !IsPrivate4(pkt[16..20]))
    || (IsTcp6(pkt) && !IsPrivate6(pkt[24..40]))
  }

  /** A reply of the local proxy. */
  predicate IsReply(pkt: Bytes, tproxy: Port) {
    IsTcp4(pkt) && U16(pkt, pkt[0] % 16 * 4) == tproxy
  }

  lemma {:induction false} BitsOf(b: Byte)
    ensures Has(b, FIN) <==> b as bv8 & 0x01 != 0
    ensures Has(b, SYN) <==> b as bv8 & 0x02 != 0
    ensures Has(b, RST) <==> b as bv8 & 0x04 != 0
    ensures Has(b, ACK) <==> b as bv8 & 0x10 != 0
  {
  }

  lemma {:induction false} MasksOf(b: bv8)
    ensures b & 0x17 == 0x02 <==> b & 0x02 != 0 && b & 0x10 == 0 && b & 0x01 == 0 && b & 0x04 == 0
    ensures b & 0x05 != 0 <==> b & 0x01 != 0 || b & 0x04 != 0
  {
  }

  /** The model's predicates are about these bytes. */
  lemma {:induction false} FlagsAreBits(pkt: Bytes)
    requires FullTcp(pkt)
    ensures IsTcp4(pkt) || IsTcp6(pkt)
    ensures Opens(pkt) <==> IsPureSyn(pkt)
    ensures IsClosing(FlagsOf(pkt)) <==> HasFinOrRst(pkt)
  {
    hide Has;
    BitsOf(FlagsOf(pkt));
    MasksOf(FlagsOf(pkt) as bv8);
  }

  lemma {:induction false} GovernedIsPoliced(pkt: Bytes, cfg: Config)
    ensures IsGoverned(pkt, cfg) <==> RouteOf(pkt, cfg) == Policed
    ensures IsReply(pkt, cfg.tproxy) <==> RouteOf(pkt, cfg) == Reply
    ensures IsGoverned(pkt, cfg) ==> FullTcp(pkt) && (FullTcp4(pkt) <==> IsTcp4(pkt)) && (FullTcp6(pkt) <==> IsTcp6(pkt))
  {
  }

  /** The key of a flow in the policy table: source and destination address, an IPv4 one before twelve zeros,
      source and destination port, and the IP version. */
  lemma {:induction false} KeyOnTheWire(pkt: Bytes)
    requires IsTcp4(pkt) || IsTcp6(pkt)
    ensures FullTcp(pkt)
    ensures var key, v4 := KeyOf(pkt), pkt[0] / 16 == 4;
      var tcp, zeros := if v4 then pkt[0] % 16 * 4 else 40, [0, 0, 0, 0, 0, 0, 0, 0, 0, 0, 0, 0];
      && key.srcIP == (if v4 then pkt[12..16] + zeros else pkt[8..24])
      && key.dstIP == (if v4 then pkt[16..20] + zeros else pkt[24..40])
      && key.srcPort == U16(pkt, tcp) && key.dstPort == U16(pkt, tcp + 2) && key.ver == (if v4 then 4 else 6)
  {
    if IsTcp4(pkt) {
      Le32RoundTrip(pkt, 12);
      Le32RoundTrip(pkt, 16);
    }
  }

  // ---------------------------------------------------------------- which addresses are private

  /** The numerical value of an IPv4 address. */
  function Number(ip: Ip4): int {
    ip[0] as int * 0x100_0000 + ip[1] as int * 0x1_0000 + ip[2] as int * 0x100 + ip[3] as int
  }

  /** The private IPv4 addresses, as blocks of consecutive addresses. */
  lemma {:induction false} PrivateBlocks(ip: Ip4)
    ensures var n := Number(ip);
      IsPrivate4(ip) <==>
        || n < 0x0100_0000                     // 0.0.0.0/8
        || 0x0A00_0000 <= n < 0x0B00_0000      // 10.0.0.0/8
        || 0x6440_0000 <= n < 0x6480_0000      // 100.64.0.0/10
        || 0x7F00_0000 <= n < 0x8000_0000      // 127.0.0.0/8
        || 0xA9FE_0000 <= n < 0xA9FF_0000      // 169.254.0.0/16
        || 0xAC10_0000 <= n < 0xAC20_0000      // 172.16.0.0/12
        || 0xC000_0000 <= n < 0xC000_0100      // 192.0.0.0/24
        || 0xC0A8_0000 <= n < 0xC0A9_0000      // 192.168.0.0/16
        || 0xE000_0000 <= n                    // 224.0.0.0 and above
  {
  }

  /** The private IPv6 addresses: an IPv4 address in IPv6 form is as that address is, and of the others those
      from fc00:: to fdff:.., those from fe80:: on, the unspecified and the loopback address. */
  lemma {:induction false} PrivateBlocks6(ip: Ip16)
    ensures IsPrivate6(ip) <==>
      if ip[..12] == [0, 0, 0, 0, 0, 0, 0, 0, 0, 0, 255, 255] then IsPrivate4(ip[12..])
      else
        || 0xFC00 <= U16(ip, 0) <= 0xFDFF || 0xFE80 <= U16(ip, 0)
        || (ip[..15] == [0, 0, 0, 0, 0, 0, 0, 0, 0, 0, 0, 0, 0, 0, 0] && ip[15] <= 1)
  {
  }

  // ---------------------------------------------------------------- packets the policy table does not govern

  /** A whole UDP header for port 443 of an outside address that is not the upstream proxy's. */
  predicate IsQuic(pkt: Bytes, cfg: Config) {
    || (&& |pkt| >= 20 && pkt[0] / 16 == 4 && pkt[0] % 16 >= 5 && pkt[9] == 17
        && |pkt| >= pkt[0] % 16 * 4 + 8 && U16(pkt, pkt[0] % 16 * 4 + 2) == 443
        && cfg.upstream != Some(pkt[16..20]) && !IsPrivate4(pkt[16..20]))
    || (|pkt| >= 48 && pkt[0] / 16 == 6 && pkt[6] == 17 && U16(pkt, 42) == 443 && !IsPrivate6(pkt[24..40]))
  }

  /** Neither IPv4 nor IPv6; or IPv4 with its header cut short or misstated, with another protocol than TCP and
      UDP, or with TCP but not even the two ports. */
  predicate IsUnreadable(pkt: Bytes) {
    || |pkt| == 0 || pkt[0] / 16 !in {4, 6}
    || (pkt[0] / 16 == 4 &&
        (|| |pkt| < 20 || pkt[0] % 16 < 5 || |pkt| < pkt[0] % 16 * 4 || pkt[9] !in {6, 17}
         || (pkt[9] == 6 && |pkt| < pkt[0] % 16 * 4 + 4)))
  }

  /** A packet that is neither governed nor a reply of the proxy touches no table. It is dropped if it is
      unreadable or QUIC of a program on the whitelist, and else sent as it is. */
  lemma {:induction false} OthersPassOrNot(s: State, pkt: Bytes, addr: Address, answers: Answers)
    requires Sane(s) && s.pc == Idle && !IsGoverned(pkt, s.cfg) && !IsReply(pkt, s.cfg.tproxy)
    ensures var r := Process(s, pkt, addr, answers);
      && r.tracker == s.tracker && r.policies == s.policies
      && r.outs == s.outs +
           if IsUnreadable(pkt) || (IsQuic(pkt, s.cfg) && answers.name.Some? && answers.name.value in s.cfg.whitelist)
           then [] else [Output(|s.inputs|, pkt, addr)]
  {
    hide Process, IsPrivate4, IsPrivate6;
    GovernedIsPoliced(pkt, s.cfg);
    ProcessByRoute(s, pkt, addr, answers);
    UngovernedRoutes(pkt, s.cfg);
  }

  lemma {:induction false} UngovernedRoutes(pkt: Bytes, cfg: Config)
    requires RouteOf(pkt, cfg) != Policed && RouteOf(pkt, cfg) != Reply
    ensures RouteOf(pkt, cfg) == Discard <==> IsUnreadable(pkt)
    ensures RouteOf(pkt, cfg) == Filter <==> IsQuic(pkt, cfg)
  {
  }

  // ---------------------------------------------------------------- packets it governs

  /** Only a pure SYN can open a connection. Any other packet of a flow without an entry that does not end
      one - a SYN-ACK, say - changes no mapping, fixes that its flow is let through, and goes out as it is. */
  lemma {:induction false} OtherThanSynPasses(s: State, pkt: Bytes, addr: Address, answers: Answers)
    requires Sane(s) && s.pc == Idle && IsGoverned(pkt, s.cfg)
    requires !IsPureSyn(pkt) && !HasFinOrRst(pkt)
    ensures FullTcp(pkt)
    ensures KeyOf(pkt) !in s.policies ==>
      var r := Process(s, pkt, addr, answers);
      && r.policies == s.policies[KeyOf(pkt) := Policy(Pass, 0, s.now)] && r.tracker == s.tracker
      && r.outs == s.outs + [Output(|s.inputs|, pkt, addr)]
  {
    hide Process, KeyOf, RouteOf, IsGoverned;
    GovernedIsPoliced(pkt, s.cfg);
    FlagsAreBits(pkt);
    if KeyOf(pkt) !in s.policies {
      MidStreamPasses(s, pkt, addr, answers);
    }
  }

  /** A packet with FIN or RST ends what the table says of its flow and goes out as it is. */
  lemma {:induction false} FinOrRstPasses(s: State, pkt: Bytes, addr: Address, answers: Answers)
    requires Sane(s) && s.pc == Idle && IsGoverned(pkt, s.cfg) && HasFinOrRst(pkt)
    ensures FullTcp(pkt)
    ensures var r := Process(s, pkt, addr, answers);
      && r.policies == s.policies - {KeyOf(pkt)} && r.tracker == s.tracker
      && r.outs == s.outs + [Output(|s.inputs|, pkt, addr)]
  {
    hide Process, KeyOf, RouteOf, IsGoverned;
    GovernedIsPoliced(pkt, s.cfg);
    FlagsAreBits(pkt);
    ClosingPacketPasses(s, pkt, addr, answers);
  }

  /** `o` is a copy of `i` that goes from port `m` of 127.0.0.1 to port `tproxy` there, outbound on the loopback
      path, changed in nothing but endpoints and the two checksums. */
  ghost predicate IsSentToProxy(o: Output, i: Input, m: Port, tproxy: Port) {
    && IsTcp4(i.pkt) && |o.pkt| == |i.pkt|
    && (var tcp := i.pkt[0] % 16 * 4;
        && o.pkt[12..16] == [127, 0, 0, 1] && o.pkt[16..20] == [127, 0, 0, 1]
        && U16(o.pkt, tcp) == m && U16(o.pkt, tcp + 2) == tproxy
        && forall k :: 0 <= k < |i.pkt| && !(10 <= k < 20) && !(tcp <= k < tcp + 4) && !(tcp + 16 <= k < tcp + 18) ==>
             o.pkt[k] == i.pkt[k])
    && o.addr.outbound && o.addr.loopback
    && o.addr.ifIdx == i.addr.ifIdx && o.addr.subIfIdx == i.addr.subIfIdx && o.addr.rest == i.addr.rest
  }

  /** The checksums of the IPv4 header and of the TCP segment are the ones given. */
  predicate HasSums(pkt: Bytes, sums: Sums) {
    IsTcp4(pkt) && U16(pkt, 10) == sums.ip && U16(pkt, pkt[0] % 16 * 4 + 16) == sums.tcp
  }

  lemma {:induction false} HijackOnTheWire(o: Output, i: Input, m: Port, tproxy: Port, sums: Sums)
    requires FullTcp4(i.pkt) && o.pkt == Hijacked(i.pkt, m, tproxy, sums) && o.addr == HijackedAddr(i.addr)
    ensures IsSentToProxy(o, i, m, tproxy) && HasSums(o.pkt, sums)
  {
    hide WithEndpoints, WithSums;
    RewritingIsNat(i.pkt, ToProxy(m, tproxy), sums);
    assert Endpoints(o.pkt) == ToProxy(m, tproxy);
  }

  /** The flow of an IPv4 TCP packet is mapped. */
  predicate IsMapped(t: Tracker, pkt: Bytes)
    requires IsTcp4(pkt)
  {
    var tcp := pkt[0] % 16 * 4;
    OrigFlow(pkt[12..16], U16(pkt, tcp), pkt[16..20], U16(pkt, tcp + 2)) in t.orig
  }

  /** All ports from 32768 to 60999 but the proxy's own are mapped, and none of them to this flow. */
  predicate IsOutOfPorts(s: State, pkt: Bytes)
    requires IsTcp4(pkt)
  {
    && !IsMapped(s.tracker, pkt)
    && |s.tracker.entries| == if 32768 <= s.cfg.tproxy <= 60999 then 28231 else 28232
  }

  /** The flow of an IPv4 TCP packet is mapped to port `m`, in the two tables of the tracker. */
  ghost predicate IsMappedTo(t: Tracker, pkt: Bytes, m: Port)
    requires IsTcp4(pkt)
  {
    var key, tcp := ConnKey([127, 0, 0, 1], m), pkt[0] % 16 * 4;
    && 32768 <= m <= 60999 && m != t.reserved
    && key in t.entries
    && t.entries[key].flow == OrigFlow(pkt[12..16], U16(pkt, tcp), pkt[16..20], U16(pkt, tcp + 2))
    && t.entries[key].flow in t.orig && t.orig[t.entries[key].flow] == key
  }

  /** What a pure SYN of a flow without entry, or with an undecided one, brings about. If no program is found
      for it, or one that is not on the whitelist, it passes. Of a program on the whitelist it is dropped on
      IPv6, and on IPv4 mapped to a port, recorded with it and sent to the local proxy from it, unless no port is
      left, when it passes, or no checksums can be computed, when it is lost. */
  lemma {:induction false} PureSynDecides(s: State, pkt: Bytes, addr: Address, answers: Answers)
    requires Well(s) && s.pc == Idle && IsGoverned(pkt, s.cfg) && IsPureSyn(pkt)
    requires FullTcp(pkt) && (KeyOf(pkt) in s.policies ==> s.policies[KeyOf(pkt)].kind == Undecided)
    ensures var r, key := Process(s, pkt, addr, answers), KeyOf(pkt);
      key in r.policies &&
      var p := r.policies[key];
      if answers.name.None? || answers.name.value !in s.cfg.whitelist then
        && p == Policy(if answers.name.None? then Undecided else Pass, 0, s.now) && r.tracker == s.tracker
        && r.outs == s.outs + [Output(|s.inputs|, pkt, addr)]
      else if IsTcp6(pkt) then p == Policy(Intercept, 0, s.now) && r.tracker == s.tracker && r.outs == s.outs
      else IsRegistered(s, r, pkt, addr, p, answers)
  {
    hide Process, KeyOf, RouteOf, IsGoverned, IsPureSyn, Hijacked, HijackedAddr, IsSentToProxy, HasSums, IsMappedTo, Endpoints;
    hide GoodTable, GoodPc, Opens, Exhausted, IsOutOfPorts, T.Bijective;
    GovernedIsPoliced(pkt, s.cfg);
    FlagsAreBits(pkt);
    FirstSynDecides(s, pkt, addr, answers);
    if FullTcp4(pkt) {
      ExhaustedIsOutOfPorts(s, pkt);
      if Listed(s, answers) && !Exhausted(s, pkt) && answers.sums.Some? {
        var r := Process(s, pkt, addr, answers);
        ProcessKeepsInvariants(s, pkt, addr, answers);
        FlowIsMapped(r.tracker, pkt);
        HijackOnTheWire(r.outs[|s.outs|], Input(pkt, addr, s.cfg.upstream), r.policies[KeyOf(pkt)].port, s.cfg.tproxy,
                        answers.sums.value);
      }
    }
  }

  /** Working on a packet of a proxied flow: over the port recorded, or by registering the flow anew. */
  lemma {:induction false} InterceptedIsMapped(s0: State, s: State, answers: Answers)
    requires Well(s0) && s0.pc == Idle && s.pc.Check?
    requires var job := s.pc.job;
      && FullTcp4(job.pkt) && RouteOf(job.pkt, s0.cfg) == Policed && job.idx == |s0.inputs| && s.pc.port != 0
      && s == s0.(inputs := s0.inputs + [Input(job.pkt, job.addr, s0.cfg.upstream)], pc := s.pc)
    ensures var r, pkt, addr, key := Finish(s, answers), s.pc.job.pkt, s.pc.job.addr, KeyOf(s.pc.job.pkt);
      if ConnKey([127, 0, 0, 1], s.pc.port) in s.tracker.entries then
        && r.policies == s.policies && r.tracker == s.tracker
        && (answers.sums.None? ==> r.outs == s.outs)
        && (answers.sums.Some? ==> IsLastSentToProxy(s0, r, pkt, addr, s.pc.port, answers.sums.value))
      else key in r.policies && IsRegistered(s0, r, pkt, addr, r.policies[key], answers)
  {
    hide Finish, KeyOf, RouteOf, Hijacked, HijackedAddr, IsSentToProxy, HasSums, Endpoints, GoodPc, T.Bijective, IsRegistered;
    FinishCheck(s, answers);
    var job := s.pc.job;
    if !HasMapped(s.tracker, s.pc.port) {
      RegisteringIsWell(s0, s.(pc := Register(job)));
      RegisteringOnTheWire(s0, s.(pc := Register(job)), answers);
    } else if answers.sums.Some? {
      var r := Finish(s, answers);
      HijackOnTheWire(r.outs[|s.outs|], Input(job.pkt, job.addr, s0.cfg.upstream), s.pc.port, s.cfg.tproxy, answers.sums.value);
    }
  }

  /** How registering a flow ends, its entry then being `p`. */
  ghost predicate IsRegistered(s: State, r: State, pkt: Bytes, addr: Address, p: Policy, answers: Answers)
    requires IsTcp4(pkt)
  {
    if IsOutOfPorts(s, pkt) then
      && p == Policy(Pass, 0, s.now) && !IsMapped(r.tracker, pkt)
      && r.outs == s.outs + [Output(|s.inputs|, pkt, addr)]
    else if answers.sums.None? then p == Policy(Pass, 0, s.now) && !IsMapped(r.tracker, pkt) && r.outs == s.outs
    else
      && p == Policy(Intercept, p.port, s.now) && IsMappedTo(r.tracker, pkt, p.port)
      && IsLastSentToProxy(s, r, pkt, addr, p.port, answers.sums.value)
  }

  lemma {:induction false} RegisteringOnTheWire(s0: State, s: State, answers: Answers)
    requires Well(s) && s.pc.Register? && s.pc.job.idx == |s0.inputs|
    requires s.tracker == s0.tracker && s.outs == s0.outs && s.cfg == s0.cfg && s.now == s0.now
    ensures var r, pkt, addr := Finish(s, answers), s.pc.job.pkt, s.pc.job.addr;
      KeyOf(pkt) in r.policies && IsTcp4(pkt) && IsRegistered(s0, r, pkt, addr, r.policies[KeyOf(pkt)], answers)
  {
    hide Finish, KeyOf, Hijacked, HijackedAddr, IsSentToProxy, HasSums, IsMappedTo, Endpoints, T.Bijective, Exhausted, IsOutOfPorts;
    var r, job := Finish(s, answers), s.pc.job;
    HijackIsAllOrNothing(s, answers);
    ExhaustedIsOutOfPorts(s0, job.pkt);
    ExhaustedIsOutOfPorts(s, job.pkt);
    assert Exhausted(s0, job.pkt) == Exhausted(s, job.pkt) by { SameTablesSameRoom(s0, s, job.pkt); }
    if Endpoints(job.pkt) in r.tracker.orig {
      FinishingKeepsBijection(s, answers);
      FlowIsMapped(r.tracker, job.pkt);
      HijackOnTheWire(r.outs[|s.outs|], Input(job.pkt, job.addr, s0.cfg.upstream), r.policies[KeyOf(job.pkt)].port, s.cfg.tproxy,
                      answers.sums.value);
    }
  }

  lemma {:induction false} SameTablesSameRoom(a: State, b: State, pkt: Bytes)
    requires FullTcp4(pkt) && a.tracker == b.tracker && a.cfg == b.cfg
    ensures Exhausted(a, pkt) == Exhausted(b, pkt)
  {
  }

  lemma {:induction false} FinishingKeepsBijection(s: State, answers: Answers)
    requires Well(s)
    ensures T.Bijective(Finish(s, answers).tracker)
  {
    hide Finish, T.Bijective, GoodTable, GoodPc;
    var steps := FinishIsRun(s, Start, answers);
    RunsStayWell(s, steps);
  }

  lemma {:induction false} ExhaustedIsOutOfPorts(s: State, pkt: Bytes)
    requires FullTcp4(pkt)
    ensures IsTcp4(pkt) && !IsTcp6(pkt) && (Exhausted(s, pkt) <==> IsOutOfPorts(s, pkt))
    ensures forall t: Tracker :: IsMapped(t, pkt) <==> Endpoints(pkt) in t.orig
  {
  }

  lemma {:induction false} FlowIsMapped(t: Tracker, pkt: Bytes)
    requires FullTcp4(pkt) && T.Bijective(t) && Endpoints(pkt) in t.orig
    ensures IsTcp4(pkt) && IsMappedTo(t, pkt, t.orig[Endpoints(pkt)].port)
  {
    assert t.orig[Endpoints(pkt)] in t.entries;
  }

  /** Handling a governed packet changes no entry but that of its own flow. */
  lemma {:induction false} OthersKeepEntries(s: State, pkt: Bytes, addr: Address, answers: Answers, other: FlowKey)
    requires Sane(s) && s.pc == Idle && FullTcp(pkt) && other != KeyOf(pkt)
    ensures SameEntry(s, Process(s, pkt, addr, answers), other)
  {
    hide KeyOf, Finish, RouteOf, SameEntry;
    ReceivingKeepsEntries(s, pkt, addr, other);
    FinishingKeepsOthers(s, Receive(s, pkt, addr), answers, other);
  }

  predicate SameEntry(s: State, r: State, key: FlowKey) {
    (key in r.policies <==> key in s.policies) && (key in r.policies ==> r.policies[key] == s.policies[key])
  }

  /** The packet in hand, if it is one of TCP, is of another flow. */
  predicate IsElsewhere(pc: Pc, key: FlowKey) {
    pc != Idle && FullTcp(pc.job.pkt) ==> KeyOf(pc.job.pkt) != key
  }

  lemma {:induction false} ReceivingKeepsEntries(s: State, pkt: Bytes, addr: Address, key: FlowKey)
    requires Sane(s) && s.pc == Idle && FullTcp(pkt) && key != KeyOf(pkt)
    ensures var r := Receive(s, pkt, addr); SameEntry(s, r, key) && IsElsewhere(r.pc, key)
  {
    hide KeyOf, RouteOf;
  }

  lemma {:induction false} FinishingKeepsOthers(s0: State, s: State, answers: Answers, key: FlowKey)
    requires Sane(s) && SameEntry(s0, s, key) && IsElsewhere(s.pc, key)
    ensures SameEntry(s0, Finish(s, answers), key)
    decreases Rank(s.pc)
  {
    hide Proceed, SameEntry, IsElsewhere, Rank;
    if s.pc != Idle {
      RankFalls(s, answers);
      ProceedingKeepsOthers(s0, s, answers, key);
      FinishingKeepsOthers(s0, Proceed(s, answers), answers, key);
    }
  }

  lemma {:induction false} ProceedingKeepsOthers(s0: State, s: State, answers: Answers, key: FlowKey)
    requires Sane(s) && SameEntry(s0, s, key) && IsElsewhere(s.pc, key)
    ensures var r := Proceed(s, answers); SameEntry(s0, r, key) && IsElsewhere(r.pc, key)
  {
    hide Hijacked, Reversed, SetPort, KeyOf, Endpoints, DecideNewFlow;
  }

  /** What a packet of a flow with an entry brings about that neither ends it nor opens it anew while it is
      undecided. A flow let through passes and a blocked one is dropped, whatever the whitelist now says. A packet
      of a proxied flow is sent to the local proxy from the port recorded, if that is mapped, and otherwise the
      flow is mapped anew; with no port left it passes, and without checksums it is lost. */
  lemma {:induction false} KnownFlowKeepsRoute(s: State, pkt: Bytes, addr: Address, answers: Answers)
    requires Well(s) && s.pc == Idle && IsGoverned(pkt, s.cfg) && !HasFinOrRst(pkt)
    requires FullTcp(pkt) && KeyOf(pkt) in s.policies && !(s.policies[KeyOf(pkt)].kind == Undecided && IsPureSyn(pkt))
    ensures var r, key := Process(s, pkt, addr, answers), KeyOf(pkt);
      var was := s.policies[key];
      key in r.policies &&
      var p := r.policies[key];
      if was.kind != Intercept then
        r.policies == s.policies && r.tracker == s.tracker && r.outs == s.outs + [Output(|s.inputs|, pkt, addr)]
      else if IsTcp6(pkt) then r.policies == s.policies && r.tracker == s.tracker && r.outs == s.outs
      else if ConnKey([127, 0, 0, 1], was.port) in s.tracker.entries then
        && r.policies == s.policies && r.tracker == s.tracker
        && (answers.sums.None? ==> r.outs == s.outs)
        && (answers.sums.Some? ==> IsLastSentToProxy(s, r, pkt, addr, was.port, answers.sums.value))
      else IsRegistered(s, r, pkt, addr, p, answers)
  {
    hide Process, Finish, KeyOf, RouteOf, IsGoverned, IsPureSyn, Hijacked, HijackedAddr, IsSentToProxy, HasSums, IsRegistered;
    hide GoodPc, Has, HasFinOrRst, T.Bijective, Endpoints, SetPort, NewFlow;
    var job := Job(|s.inputs|, pkt, addr);
    var s1 := s.(inputs := s.inputs + [Input(pkt, addr, s.cfg.upstream)], pc := Lookup(job));
    GovernedIsPoliced(pkt, s.cfg);
    FlagsAreBits(pkt);
    ProcessByRoute(s, pkt, addr, answers);
    FinishLookup(s1, answers);
    KeysCarryVersion(pkt);
    if s.policies[KeyOf(pkt)].kind == Intercept && FullTcp4(pkt) {
      InterceptedIsMapped(s, s1.(pc := Check(job, s.policies[KeyOf(pkt)].port)), answers);
    }
  }

  /** One more packet than in `s` was sent for the next input, to the local proxy from port `m`. */
  ghost predicate IsLastSentToProxy(s: State, r: State, pkt: Bytes, addr: Address, m: Port, sums: Sums) {
    && |r.outs| == |s.outs| + 1 && s.outs <= r.outs && r.outs[|s.outs|].idx == |s.inputs|
    && IsSentToProxy(r.outs[|s.outs|], Input(pkt, addr, s.cfg.upstream), m, s.cfg.tproxy)
    && HasSums(r.outs[|s.outs|].pkt, sums)
  }

  /** What becomes of a reply of the local proxy. If the address and port it goes to are not mapped it is sent as
      it is; otherwise it is sent from the destination of the mapped flow to its source, by the interface of the
      mapping, and without checksums it is lost. */
  lemma {:induction false} RepliesPassOrGoHome(s: State, pkt: Bytes, addr: Address, answers: Answers)
    requires Sane(s) && s.pc == Idle && IsReply(pkt, s.cfg.tproxy)
    ensures var r, tcp := Process(s, pkt, addr, answers), pkt[0] % 16 * 4;
      var key := ConnKey(pkt[16..20], U16(pkt, tcp + 2));
      && r.tracker == s.tracker && r.policies == s.policies
      && (key !in s.tracker.entries ==> r.outs == s.outs + [Output(|s.inputs|, pkt, addr)])
      && (key in s.tracker.entries && answers.sums.None? ==> r.outs == s.outs)
      && (key in s.tracker.entries && answers.sums.Some? ==>
            && |r.outs| == |s.outs| + 1 && s.outs <= r.outs && r.outs[|s.outs|].idx == |s.inputs|
            && IsSentHome(r.outs[|s.outs|], Input(pkt, addr, s.cfg.upstream), s.tracker.entries[key])
            && HasSums(r.outs[|s.outs|].pkt, answers.sums.value))
  {
    hide Process, Reversed, ReversedAddr, IsSentHome, HasSums;
    GovernedIsPoliced(pkt, s.cfg);
    ProcessByRoute(s, pkt, addr, answers);
    var key := ConnKey(pkt[16..20], DstPort(pkt));
    if key in s.tracker.entries && answers.sums.Some? {
      var o := Process(s, pkt, addr, answers).outs[|s.outs|];
      ReversalOnTheWire(o, Input(pkt, addr, s.cfg.upstream), s.tracker.entries[key], answers.sums.value);
    }
  }

  /** `o` is a copy of `i` that goes from the destination of a mapped flow to its source, by the interface the flow
      came in on, and on the loopback path if its source is there, changed in nothing but endpoints and checksums. */
  ghost predicate IsSentHome(o: Output, i: Input, target: ConnTarget) {
    && IsTcp4(i.pkt) && |o.pkt| == |i.pkt|
    && (var tcp := i.pkt[0] % 16 * 4;
        && o.pkt[12..16] == target.flow.dstIP && o.pkt[16..20] == target.flow.srcIP
        && U16(o.pkt, tcp) == target.flow.dstPort && U16(o.pkt, tcp + 2) == target.flow.srcPort
        && forall k :: 0 <= k < |i.pkt| && !(10 <= k < 20) && !(tcp <= k < tcp + 4) && !(tcp + 16 <= k < tcp + 18) ==>
             o.pkt[k] == i.pkt[k])
    && o.addr.outbound == o.addr.loopback == (target.flow.srcIP[0] == 127)
    && o.addr.ifIdx == target.ifIdx && o.addr.subIfIdx == target.subIfIdx && o.addr.rest == i.addr.rest
  }

  lemma {:induction false} ReversalOnTheWire(o: Output, i: Input, target: ConnTarget, sums: Sums)
    requires FullTcp4(i.pkt) && o.pkt == Reversed(i.pkt, target, sums) && o.addr == ReversedAddr(i.addr, target)
    ensures IsSentHome(o, i, target) && HasSums(o.pkt, sums)
  {
    hide WithEndpoints, WithSums;
    RewritingIsNat(i.pkt, Swap(target.flow), sums);
    assert Endpoints(o.pkt) == Swap(target.flow);
  }

  // ---------------------------------------------------------------- over all runs

  /** Some packet received is a pure SYN of flow `key`. */
  ghost predicate WasOpened(s: State, key: FlowKey) {
    exists i :: 0 <= i < |s.inputs| && FullTcp(s.inputs[i].pkt) && KeyOf(s.inputs[i].pkt) == key && IsPureSyn(s.inputs[i].pkt)
  }

  lemma {:induction false} ApprovedWasOpened(cfg: Config, ttl: int, steps: History<Step>, key: FlowKey)
    requires Approved(NewState(cfg, ttl), steps, key)
    ensures WasOpened(Run(NewState(cfg, ttl), steps), key)
    decreases steps
  {
    hide Next, KeyOf, IsPureSyn, Opens, GoodTable, T.Bijective;
    var s := Run(NewState(cfg, ttl), steps.past);
    if Approves(s, steps.last, key) {
      NewStateIsWell(cfg, ttl);
      RunsStayWell(NewState(cfg, ttl), steps.past);
      FlagsAreBits(s.pc.job.pkt);
      assert s.inputs[s.pc.job.idx].pkt == s.pc.job.pkt;
    } else {
      ApprovedWasOpened(cfg, ttl, steps.past, key);
    }
  }

  /** Over all runs from the start: if the table says that a flow is intercepted, a packet of that flow has
      been received with SYN set and ACK, RST and FIN clear. */
  lemma {:induction false} InterceptedBeganWithSyn(cfg: Config, ttl: int, steps: History<Step>, key: FlowKey)
    ensures var r := Run(NewState(cfg, ttl), steps);
      key in r.policies && r.policies[key].kind == Intercept ==> WasOpened(r, key)
  {
    hide Run, WasOpened;
    InterceptionHasProvenance(cfg, ttl, steps, key);
    if Approved(NewState(cfg, ttl), steps, key) {
      ApprovedWasOpened(cfg, ttl, steps, key);
    }
  }

  /** The handler of `m` does not let go of it, and no packet of flow `key` with FIN or RST is received. */
  predicate GoesOn(steps: History<Step>, key: FlowKey, m: Port)
    decreases steps
  {
    steps.Then? ==>
      && steps.last != Close(ConnKey([127, 0, 0, 1], m))
      && !(steps.last.Packet? && FullTcp(steps.last.pkt) && KeyOf(steps.last.pkt) == key && HasFinOrRst(steps.last.pkt))
      && GoesOn(steps.past, key, m)
  }

  lemma {:induction false} GoingOnIsNotEnding(steps: History<Step>, key: FlowKey, m: Port)
    requires GoesOn(steps, key, m)
    ensures NeverEnded(steps, key, m)
    decreases steps
  {
    hide KeyOf, HasFinOrRst, FlagsOf;
    if steps.Then? {
      GoingOnIsNotEnding(steps.past, key, m);
      if steps.last.Packet? && FullTcp(steps.last.pkt) {
        FlagsAreBits(steps.last.pkt);
      }
    }
  }

  ghost predicate NewOnesGoToProxy(s: State, r: State, key: FlowKey, m: Port) {
    && s.outs <= r.outs && s.inputs <= r.inputs
    && forall n :: |s.outs| <= n < |r.outs| ==>
         r.outs[n].idx < |r.inputs| &&
         var o, i := r.outs[n], r.inputs[r.outs[n].idx];
         FullTcp4(i.pkt) && OnFlow(i.pkt, key, r.cfg.tproxy) && i.upstream != Some(i.pkt[16..20]) ==>
           IsSentToProxy(o, i, m, r.cfg.tproxy)
  }

  /** A flow proxied through port `m` stays so until its handler leaves or a packet of it with FIN or RST comes,
      and its packets go out to the local proxy. */
  lemma {:induction false} ProxiedUntilFinOrRst(s: State, steps: History<Step>, key: FlowKey, m: Port)
    requires Well(s) && Proxied(s, key, m) && GoesOn(steps, key, m)
    ensures Proxied(Run(s, steps), key, m) && NewOnesGoToProxy(s, Run(s, steps), key, m)
  {
    hide Run, Proxied, GoodTable, GoodPc, T.Bijective, OnFlow, Hijacked, HijackedAddr, IsSentToProxy, GoesOn, NeverEnded;
    GoingOnIsNotEnding(steps, key, m);
    LiveFlowStaysProxied(s, steps, key, m);
    var r := Run(s, steps);
    forall n | |s.outs| <= n < |r.outs| &&
        FullTcp4(r.inputs[r.outs[n].idx].pkt) && OnFlow(r.inputs[r.outs[n].idx].pkt, key, r.cfg.tproxy) &&
        r.inputs[r.outs[n].idx].upstream != Some(r.inputs[r.outs[n].idx].pkt[16..20])
      ensures IsSentToProxy(r.outs[n], r.inputs[r.outs[n].idx], m, r.cfg.tproxy)
    {
      var o, i := r.outs[n], r.inputs[r.outs[n].idx];
      var sums :| o.pkt == Hijacked(i.pkt, m, r.cfg.tproxy, sums);
      HijackOnTheWire(o, i, m, r.cfg.tproxy, sums);
    }
  }

  /** Every packet that goes out changed, and is no reply of the proxy, goes to the local proxy. */
  ghost predicate ChangedGoToProxy(s: State) {
    forall o <- s.outs :: o.idx < |s.inputs| &&
      (o.pkt != s.inputs[o.idx].pkt && !IsReply(s.inputs[o.idx].pkt, s.cfg.tproxy) ==>
         exists m :: IsSentToProxy(o, s.inputs[o.idx], m, s.cfg.tproxy))
  }

  lemma {:induction false} OrderedAreOnTheWire(s: State)
    requires Ordered(s)
    ensures ChangedGoToProxy(s)
  {
    hide Hijacked, HijackedAddr, IsSentToProxy;
    forall o <- s.outs | o.pkt != s.inputs[o.idx].pkt && !IsReply(s.inputs[o.idx].pkt, s.cfg.tproxy)
      ensures exists m :: IsSentToProxy(o, s.inputs[o.idx], m, s.cfg.tproxy)
    {
      var i := s.inputs[o.idx];
      assert !IsReverse(o, i, s.cfg.tproxy);
      var m, sums :| o.pkt == Hijacked(i.pkt, m, s.cfg.tproxy, sums);
      HijackOnTheWire(o, i, m, s.cfg.tproxy, sums);
    }
  }

  /** Over all runs from the start: what goes out is the packet received, or that packet on its way to the local
      proxy by the interface it was captured on, or a reply of the proxy rewritten. */
  lemma {:induction false} OutputsOnTheWire(cfg: Config, ttl: int, steps: History<Step>)
    ensures ChangedGoToProxy(Run(NewState(cfg, ttl), steps))
  {
    hide Run, ChangedGoToProxy, Ordered;
    NewStateIsWell(cfg, ttl);
    StartIsOrdered(cfg, ttl);
    RunsStayOrdered(NewState(cfg, ttl), steps);
    OrderedAreOnTheWire(Run(NewState(cfg, ttl), steps));
  }

  lemma {:induction false} StartIsOrdered(cfg: Config, ttl: int)
    ensures Ordered(NewState(cfg, ttl))
  {
  }
}
