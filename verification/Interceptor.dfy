/** The packet handlers, working in place on their slice of the receive buffer. Each is proved to do
    what the packet loop's state machine does when nobody else takes a step in between. */
module Interceptors {
  import opened Net
  import opened Packets
  import opened TrackerModel
  import opened ConnTrack
  import opened PolicyModel
  import opened FlowPolicy
  import opened PacketLoop
  import opened Handling
  import opened SendQueues
  import T = TrackerProofs

  function Wire(outs: seq<Output>): seq<Datagram> {
    seq(|outs|, i requires 0 <= i < |outs| => Datagram(outs[i].pkt, outs[i].addr))
  }

  lemma {:induction false} SlicePatch(b: Bytes, lo: nat, hi: nat, i: nat, patch: Bytes)
    requires lo + i + |patch| <= hi <= |b|
    ensures Patch(b, lo + i, patch)[lo..hi] == Patch(b[lo..hi], i, patch)
    ensures Patch(b, lo + i, patch)[..lo] == b[..lo] && Patch(b, lo + i, patch)[hi..] == b[hi..]
  {
  }

  /** Writes `bytes` at offset `i` of the slice `buf[lo..hi]`. */
  method WriteAt(buf: array<Byte>, lo: nat, hi: nat, i: nat, bytes: Bytes)
    requires lo + i + |bytes| <= hi <= buf.Length
    modifies buf
    ensures buf[lo..hi] == Patch(old(buf[lo..hi]), i, bytes)
    ensures buf[..lo] == old(buf[..lo]) && buf[hi..] == old(buf[hi..])
  {
    forall j | 0 <= j < |bytes| {
      buf[lo + i + j] := bytes[j];
    }
    assert buf[..] == Patch(old(buf[..]), lo + i, bytes);
    SlicePatch(old(buf[..]), lo, hi, i, bytes);
    assert buf[lo..hi] == buf[..][lo..hi] && old(buf[lo..hi]) == old(buf[..])[lo..hi];
    assert buf[..lo] == buf[..][..lo] && buf[hi..] == buf[..][hi..];
    assert old(buf[..lo]) == old(buf[..])[..lo] && old(buf[hi..]) == old(buf[..])[hi..];
  }

  lemma {:induction false} WritesCommute(pkt: Bytes, ends: OrigFlow)
    requires FullTcp4(pkt)
    ensures WithEndpoints(pkt, ends) ==
      Patch(Patch(Patch(Patch(pkt, 12, ends.srcIP), HeaderLen(pkt), PutU16(ends.srcPort)), 16, ends.dstIP),
            HeaderLen(pkt) + 2, PutU16(ends.dstPort))
  {
  }

  /** Nothing outside slice `lo..hi` and address `p` has changed. */
  twostate predicate OnlySlice(buf: array<Byte>, lo: nat, hi: nat, addrs: array<Address>, p: nat)
    requires lo <= hi <= buf.Length && p < addrs.Length
    reads buf, addrs
  {
    && buf[..lo] == old(buf[..lo]) && buf[hi..] == old(buf[hi..])
    && forall i :: 0 <= i < addrs.Length && i != p ==> addrs[i] == old(addrs[i])
  }

  /** Rewrites the packet to go from its mapped loopback port to the proxy. */
  method RewriteHijack(buf: array<Byte>, lo: nat, hi: nat, addrs: array<Address>, p: nat, ihl: nat, mapped: Port, tproxy: Port)
    requires lo <= hi <= buf.Length && p < addrs.Length
    requires FullTcp4(buf[lo..hi]) && ihl == HeaderLen(buf[lo..hi])
    modifies buf, addrs
    ensures buf[lo..hi] == WithEndpoints(old(buf[lo..hi]), ToProxy(mapped, tproxy))
    ensures addrs[p] == HijackedAddr(old(addrs[p]))
    ensures OnlySlice(buf, lo, hi, addrs, p)
  {
    WriteAt(buf, lo, hi, 12, LOOPBACK);
    WriteAt(buf, lo, hi, 16, LOOPBACK);
    WriteAt(buf, lo, hi, ihl, PutU16(mapped));
    WriteAt(buf, lo, hi, ihl + 2, PutU16(tproxy));
    addrs[p] := addrs[p].(outbound := true, loopback := true);
  }

  /** Rewrites a reply back to the endpoints and the interface of its mapping. */
  method RewriteReverse(buf: array<Byte>, lo: nat, hi: nat, addrs: array<Address>, p: nat, ihl: nat, target: ConnTarget)
    requires lo <= hi <= buf.Length && p < addrs.Length
    requires FullTcp4(buf[lo..hi]) && ihl == HeaderLen(buf[lo..hi])
    modifies buf, addrs
    ensures buf[lo..hi] == WithEndpoints(old(buf[lo..hi]), Swap(target.flow))
    ensures addrs[p] == ReversedAddr(old(addrs[p]), target)
    ensures OnlySlice(buf, lo, hi, addrs, p)
  {
    var flow := target.flow;
    WritesCommute(buf[lo..hi], Swap(flow));
    WriteAt(buf, lo, hi, 12, flow.dstIP);
    WriteAt(buf, lo, hi, ihl, PutU16(flow.dstPort));
    WriteAt(buf, lo, hi, 16, flow.srcIP);
    WriteAt(buf, lo, hi, ihl + 2, PutU16(flow.srcPort));
    if flow.srcIP[0] == 127 {
      addrs[p] := addrs[p].(outbound := true, loopback := true);
    } else {
      addrs[p] := addrs[p].(outbound := false, loopback := false);
    }
    addrs[p] := addrs[p].(ifIdx := target.ifIdx, subIfIdx := target.subIfIdx);
  }

  // ---------------------------------------------------------------- the line out

  /** The queue and what lies beyond it: the packets queued, the bytes they take, the room reserved, and
      what is on the wire if there is a handle, which may have a batched call. */
  datatype Line = Line(batch: seq<Datagram>, size: nat, capacity: nat, wire: Option<seq<Datagram>>, batched: bool)

  function Flushed(l: Line, accepted: nat): Line {
    l.(batch := [], size := 0,
       wire := if l.wire.None? then None else Some(l.wire.value + Arrives(l.batch, l.batched, accepted)))
  }

  function Pushed(l: Line, d: Datagram): (r: Line)
    ensures forall accepted: nat :: Sends(l, r, [d], |d.pkt|, accepted)
  {
    var size := l.size + |d.pkt|;
    var r := l.(batch := l.batch + [d], size := size, capacity := if size <= l.capacity then l.capacity else size);
    PushingSends(l, r, d);
    r
  }

  /** A packet passed on as it is flushes a queue without room for it first. */
  function PassedOn(l: Line, d: Datagram, accepted: nat): (r: Line)
    ensures Sends(l, r, [d], |d.pkt|, accepted)
  {
    if l.size + |d.pkt| > l.capacity then
      FlushingSends(l, d, accepted);
      Pushed(Flushed(l, accepted), d)
    else Pushed(l, d)
  }

  /** Between `l` and `r` the packets `sent`, at most one and of `n` bytes, went out. With room they are
      just appended to the queue: nothing is flushed and nothing grows. And with or without room, what is
      on the wire and what is queued keep their order and lose nothing, as long as the driver accepts
      what is flushed. */
  ghost predicate Sends(l: Line, r: Line, sent: seq<Datagram>, n: nat, accepted: nat) {
    && |sent| <= 1 && (sent == [] ==> r == l) && (forall d <- sent :: |d.pkt| == n)
    && (l.size + n <= l.capacity ==> r == l.(batch := l.batch + sent, size := r.size) && r.size <= l.size + n)
    && (l.wire.Some? && Delimited(l.batch) && accepted >= |l.batch| ==>
          r.wire.Some? && r.wire.value + r.batch == l.wire.value + l.batch + sent)
  }

  lemma {:induction false} PushingSends(l: Line, r: Line, d: Datagram)
    requires var size := l.size + |d.pkt|;
      r == l.(batch := l.batch + [d], size := size, capacity := if size <= l.capacity then l.capacity else size)
    ensures forall accepted: nat :: Sends(l, r, [d], |d.pkt|, accepted)
  {
    if l.wire.Some? {
      assert l.wire.value + (l.batch + [d]) == l.wire.value + l.batch + [d];
    }
  }

  lemma {:induction false} PushSends(l: Line, d: Datagram, accepted: nat)
    ensures Sends(l, Pushed(l, d), [d], |d.pkt|, accepted)
  {
  }

  lemma {:induction false} FlushingSends(l: Line, d: Datagram, accepted: nat)
    requires l.size + |d.pkt| > l.capacity
    ensures Sends(l, Pushed(Flushed(l, accepted), d), [d], |d.pkt|, accepted)
  {
    hide Delimited, Arrives;
    if l.wire.Some? && Delimited(l.batch) && accepted >= |l.batch| {
      DelimitedArrive(l.batch, l.batched, accepted);
      assert l.wire.value + l.batch + ([] + [d]) == l.wire.value + l.batch + [d];
    }
  }

  /** What it takes to follow the machine from `s` to `r`: nothing, or its one new output. */
  lemma {:induction false} SentSince(l: Line, s: State, r: State, n: nat, accepted: nat)
    requires s.outs <= r.outs
    ensures r.outs == s.outs ==> Sends(l, l, Wire(r.outs[|s.outs|..]), n, accepted)
    ensures |r.outs| == |s.outs| + 1 ==>
      var o := r.outs[|s.outs|]; Wire(r.outs[|s.outs|..]) == [Datagram(o.pkt, o.addr)]
  {
    hide Delimited;
    if l.wire.Some? {
      assert l.wire.value + l.batch + [] == l.wire.value + l.batch;
    }
    assert l.batch + [] == l.batch;
  }

  class Interceptor {
    const tracker: ConnTracker
    const policies: FlowPolicies
    const tproxyPort: Port
    var upstream: Option<Ip4>
    var whitelist: set<string>
    var handle: Handle?

    ghost predicate Valid()
      reads this, tracker
    {
      tracker.Valid() && policies.tracker == tracker
    }

    ghost function Cfg(): Config
      reads this
    {
      Config(upstream, tproxyPort, whitelist)
    }

    constructor (tracker: ConnTracker, upstream: Option<Ip4>, tproxyPort: Port, whitelist: set<string>)
      requires tracker.Valid()
      ensures Valid() && this.tracker == tracker && Cfg() == Config(upstream, tproxyPort, whitelist)
      ensures fresh(policies) && policies.entries == map[] && handle == null
    {
      this.tracker := tracker;
      this.policies := new FlowPolicies(tracker);
      this.tproxyPort := tproxyPort;
      this.upstream, this.whitelist, this.handle := upstream, whitelist, null;
    }

    method SetWhitelist(names: set<string>)
      modifies this`whitelist
      ensures Cfg() == old(Cfg()).(whitelist := names)
    {
      whitelist := names;
    }

    method SetProxyAddr(address: Option<Ip4>)
      modifies this`upstream
      ensures Cfg() == old(Cfg()).(upstream := address)
    {
      upstream := address;
    }

    /** The shared tables are those of machine state `s`. */
    ghost predicate Matches(s: State)
      reads this, tracker, policies
    {
      Valid() && s.tracker == tracker.Value() && s.policies == policies.entries && s.cfg == Cfg()
    }

    /** Without a driver handle no checksum can be computed. */
    ghost function Heard(answers: Answers): Answers
      reads this
    {
      if handle == null then answers.(sums := None) else answers
    }

    ghost function Handles(): set<object>
      reads this
    {
      if handle == null then {} else {handle}
    }

    ghost function LineOf(q: SendQueue): Line
      requires q.Valid()
      reads this, q, Handles()
    {
      Line(q.Packets(), |q.buf|, q.capacity,
           if handle == null then None else Some(handle.wire), handle != null && handle.hasSendEx)
    }

    // -------------------------------------------------------------- sending

    /** Puts the whole queue on the wire; whatever happens, the queue is empty afterwards. */
    method FlushQueue(q: SendQueue, accepted: nat)
      requires q.Valid()
      modifies q, Handles()
      ensures q.Valid() && LineOf(q) == Flushed(old(LineOf(q)), accepted)
    {
      hide Arrives;
      var count := q.Count();
      if count == 0 {
        NothingArrives(q.Packets(), handle != null && handle.hasSendEx, accepted);
        assert q.buf == [] && q.Packets() == [];
        assert handle != null ==> handle.wire + [] == handle.wire;
        return;
      }
      if handle == null {
        q.Reset();
        return;
      }
      var ok := handle.SendBatch(q, accepted);
      q.Reset();
    }

    /** Queues the packet as it is. If the queue is full it is flushed first, which keeps the order. */
    method SendPass(q: SendQueue, buf: array<Byte>, lo: nat, hi: nat, addr: Address, accepted: nat)
      requires q.Valid() && lo < hi <= buf.Length
      modifies q, Handles()
      ensures q.Valid() && LineOf(q) == PassedOn(old(LineOf(q)), Datagram(buf[lo..hi], addr), accepted)
    {
      hide Flushed;
      var full := q.WouldOverflow(hi - lo);
      if full {
        FlushQueue(q, accepted);
      }
      PushOne(q, buf, lo, hi, addr);
    }

    method PushOne(q: SendQueue, buf: array<Byte>, lo: nat, hi: nat, addr: Address)
      requires q.Valid() && lo < hi <= buf.Length
      modifies q
      ensures q.Valid() && LineOf(q) == Pushed(old(LineOf(q)), Datagram(buf[lo..hi], addr))
    {
      q.Push(buf[lo..hi], addr);
    }

    /** Recomputes the checksums and queues the packet. Fails when there is no handle or the checksum
        helper fails; the packet is then not queued. */
    method CalcAndSend(q: SendQueue, buf: array<Byte>, lo: nat, hi: nat, addr: Address, ihl: nat, sums: Option<Sums>)
      returns (ok: bool)
      requires q.Valid() && lo < hi <= buf.Length
      requires FullTcp4(buf[lo..hi]) && ihl == HeaderLen(buf[lo..hi])
      modifies q, buf
      ensures q.Valid()
      ensures ok <==> handle != null && sums.Some?
      ensures LineOf(q) == if !ok then old(LineOf(q))
                           else Pushed(old(LineOf(q)), Datagram(WithSums(old(buf[lo..hi]), sums.value), addr))
      ensures buf[..lo] == old(buf[..lo]) && buf[hi..] == old(buf[hi..])
    {
      hide Pushed;
      if handle == null || sums.None? {
        return false;
      }
      WriteAt(buf, lo, hi, 10, PutU16(sums.value.ip));
      WriteAt(buf, lo, hi, ihl + 16, PutU16(sums.value.tcp));
      PushOne(q, buf, lo, hi, addr);
      ok := true;
    }

    // -------------------------------------------------------------- hijacking

    /** The hot path: the mapped port comes from the policy table. */
    method HijackWithPort(q: SendQueue, buf: array<Byte>, lo: nat, hi: nat, addrs: array<Address>, p: nat,
                          mapped: Port, ihl: nat, answers: Answers)
      requires q.Valid() && lo < hi <= buf.Length && p < addrs.Length
      requires FullTcp4(buf[lo..hi]) && ihl == HeaderLen(buf[lo..hi])
      modifies q, buf, addrs
      ensures q.Valid()
      ensures LineOf(q) ==
        if Heard(answers).sums.None? then old(LineOf(q))
        else Pushed(old(LineOf(q)),
                    Datagram(Hijacked(old(buf[lo..hi]), mapped, tproxyPort, answers.sums.value), HijackedAddr(old(addrs[p]))))
      ensures OnlySlice(buf, lo, hi, addrs, p)
    {
      hide WithEndpoints, WithSums, Pushed;
      RewriteIsExact(buf[lo..hi], ToProxy(mapped, tproxyPort));
      RewriteHijack(buf, lo, hi, addrs, p, ihl, mapped, tproxyPort);
      var ok := CalcAndSend(q, buf, lo, hi, addrs[p], ihl, answers.sums);
    }

    /** Registers the flow and rewrites the packet to its port, which is returned. On failure 0 is
        returned and the packet has been dealt with: it is queued unchanged when no port was left, and
        dropped, with the mapping released, when its checksums could not be computed. */
    method HijackTCP(q: SendQueue, buf: array<Byte>, lo: nat, hi: nat, addrs: array<Address>, p: nat,
                     flow: OrigFlow, ihl: nat, answers: Answers, now: nat, accepted: nat)
      returns (m: Port)
      requires Valid() && q.Valid() && lo < hi <= buf.Length && p < addrs.Length
      requires FullTcp4(buf[lo..hi]) && ihl == HeaderLen(buf[lo..hi])
      modifies q, buf, addrs, tracker, Handles()
      ensures Valid() && q.Valid()
      ensures OnlySlice(buf, lo, hi, addrs, p)
      ensures var (t, mapped) := SetPort(old(tracker.Value()), flow, old(addrs[p]).ifIdx, old(addrs[p]).subIfIdx, now);
        if mapped.None? then
          && m == 0 && tracker.Value() == t
          && LineOf(q) == PassedOn(old(LineOf(q)), Datagram(old(buf[lo..hi]), old(addrs[p])), accepted)
        else if Heard(answers).sums.None? then
          && m == 0 && tracker.Value() == Delete(t, Local(mapped.value))
          && LineOf(q) == old(LineOf(q))
        else
          && m == mapped.value && tracker.Value() == t
          && LineOf(q) == Pushed(old(LineOf(q)),
               Datagram(Hijacked(old(buf[lo..hi]), m, tproxyPort, answers.sums.value), HijackedAddr(old(addrs[p]))))
    {
      hide WithEndpoints, WithSums, SetPort, Pushed, PassedOn;
      var mapped := tracker.Set(flow, addrs[p].ifIdx, addrs[p].subIfIdx, now);
      if mapped.None? {
        SendPass(q, buf, lo, hi, addrs[p], accepted);
        return 0;
      }
      RewriteIsExact(buf[lo..hi], ToProxy(mapped.value, tproxyPort));
      RewriteHijack(buf, lo, hi, addrs, p, ihl, mapped.value, tproxyPort);
      var ok := CalcAndSend(q, buf, lo, hi, addrs[p], ihl, answers.sums);
      if !ok {
        tracker.Delete(Local(mapped.value));
        return 0;
      }
      m := mapped.value;
    }

    /** A reply of the proxy: back from the server the client meant, to the client. */
    method ReverseNAT(q: SendQueue, buf: array<Byte>, lo: nat, hi: nat, addrs: array<Address>, p: nat, ihl: nat,
                      answers: Answers, accepted: nat)
      requires Valid() && q.Valid() && lo < hi <= buf.Length && p < addrs.Length
      requires FullTcp4(buf[lo..hi]) && ihl == HeaderLen(buf[lo..hi])
      modifies q, buf, addrs, Handles()
      ensures q.Valid()
      ensures OnlySlice(buf, lo, hi, addrs, p)
      ensures var pkt := old(buf[lo..hi]);
        var key := ConnKey(pkt[16..20], DstPort(pkt));
        LineOf(q) ==
          if key !in tracker.entries then PassedOn(old(LineOf(q)), Datagram(pkt, old(addrs[p])), accepted)
          else if Heard(answers).sums.None? then old(LineOf(q))
          else Pushed(old(LineOf(q)), Datagram(Reversed(pkt, tracker.entries[key], answers.sums.value),
                                               ReversedAddr(old(addrs[p]), tracker.entries[key])))
    {
      hide WithEndpoints, WithSums, Endpoints, Pushed, PassedOn;
      var pkt: Bytes := buf[lo..hi];
      var dstPort := U16(pkt, ihl + 2);
      var target := tracker.Get(ConnKey(Ip4At(pkt, 16), dstPort));
      if target.None? {
        SendPass(q, buf, lo, hi, addrs[p], accepted);
        return;
      }
      RewriteIsExact(pkt, Swap(target.value.flow));
      RewriteReverse(buf, lo, hi, addrs, p, ihl, target.value);
      var ok := CalcAndSend(q, buf, lo, hi, addrs[p], ihl, answers.sums);
    }

    // -------------------------------------------------------------- one packet

    /** The tables are those of the machine's `r`, having been those of its `s`, and the line out has taken
        exactly what the machine sent. */
    twostate predicate Followed(q: SendQueue, s: State, r: State, n: nat, accepted: nat)
      requires old(q.Valid())
      reads this, tracker, policies, q, Handles()
    {
      && q.Valid() && Matches(r) && s.outs <= r.outs
      && Sends(old(LineOf(q)), LineOf(q), Wire(r.outs[|s.outs|..]), n, accepted)
    }

    method HandleIPv4TCP(q: SendQueue, buf: array<Byte>, lo: nat, hi: nat, addrs: array<Address>, p: nat, ihl: nat,
                         answers: Answers, now: nat, accepted: nat, ghost s: State)
      requires lo < hi <= buf.Length && p < addrs.Length && q.Valid()
      requires var pkt := buf[lo..hi];
        |pkt| >= 20 && Version(pkt) == 4 && ihl == HeaderLen(pkt) && ihl >= 20 && pkt[9] == 6 && |pkt| >= ihl + 4
      requires Matches(s) && s.pc == Idle && s.now == now && T.Bijective(s.tracker)
      modifies q, buf, addrs, tracker, policies, Handles()
      ensures Followed(q, s, Process(s, old(buf[lo..hi]), old(addrs[p]), Heard(answers)), hi - lo, accepted)
      ensures OnlySlice(buf, lo, hi, addrs, p)
    {
      hide Hijacked, Reversed, SetPort, IsPrivate4, KeyOf, Process, Finish, RouteOf, T.Bijective, Wire, Sends, PassedOn, Pushed;
      SentSince(LineOf(q), s, Process(s, buf[lo..hi], addrs[p], Heard(answers)), hi - lo, accepted);
      var pkt: Bytes := buf[lo..hi];
      ProcessByRoute(s, pkt, addrs[p], Heard(answers));
      RouteOfTcp4(pkt, s.cfg);
      if |pkt| < ihl + 20 {
        SendPass(q, buf, lo, hi, addrs[p], accepted);
        return;
      }
      var srcPort := U16(pkt, ihl);
      var dstPort := U16(pkt, ihl + 2);
      var flags := pkt[ihl + 13];
      if srcPort == tproxyPort {
        ReverseNAT(q, buf, lo, hi, addrs, p, ihl, answers, accepted);
        return;
      }
      HandleOutboundV4(q, buf, lo, hi, addrs, p, ihl, srcPort, dstPort, flags, answers, now, accepted, s);
    }

    /** A packet that is no reply of the proxy: left alone on its way to the proxy's own upstream address or
        a private one, and else subject to the policy table. */
    method HandleOutboundV4(q: SendQueue, buf: array<Byte>, lo: nat, hi: nat, addrs: array<Address>, p: nat, ihl: nat,
                            srcPort: Port, dstPort: Port, flags: Byte,
                            answers: Answers, now: nat, accepted: nat, ghost s: State)
      requires lo < hi <= buf.Length && p < addrs.Length && q.Valid()
      requires var pkt := buf[lo..hi];
        && FullTcp4(pkt) && ihl == HeaderLen(pkt) && flags == FlagsOf(pkt)
        && srcPort == SrcPort(pkt) != tproxyPort && dstPort == DstPort(pkt)
      requires Matches(s) && s.pc == Idle && s.now == now && T.Bijective(s.tracker)
      modifies q, buf, addrs, tracker, policies, Handles()
      ensures Followed(q, s, Process(s, old(buf[lo..hi]), old(addrs[p]), Heard(answers)), hi - lo, accepted)
      ensures OnlySlice(buf, lo, hi, addrs, p)
    {
      hide Hijacked, Reversed, SetPort, IsPrivate4, KeyOf, Process, Finish, RouteOf, T.Bijective, Wire, Sends, PassedOn, Pushed;
      SentSince(LineOf(q), s, Process(s, buf[lo..hi], addrs[p], Heard(answers)), hi - lo, accepted);
      var pkt: Bytes := buf[lo..hi];
      ProcessByRoute(s, pkt, addrs[p], Heard(answers));
      RouteOfTcp4(pkt, s.cfg);
      var dst := Ip4At(pkt, 16);
      if upstream == Some(dst) {
        SendPass(q, buf, lo, hi, addrs[p], accepted);
        return;
      }
      if IsPrivate4(dst) {
        SendPass(q, buf, lo, hi, addrs[p], accepted);
        return;
      }
      ghost var s1 := s.(inputs := s.inputs + [Input(pkt, addrs[p], s.cfg.upstream)], pc := Lookup(Job(|s.inputs|, pkt, addrs[p])));
      HandlePolicedV4(q, buf, lo, hi, addrs, p, ihl, Ip4At(pkt, 12), dst, srcPort, dstPort, flags, answers, now, accepted, s1);
    }

    /** The slice and address `p` hold the packet of `job`. */
    ghost predicate Holds(buf: array<Byte>, lo: nat, hi: nat, addrs: array<Address>, p: nat, job: Job)
      reads buf, addrs
    {
      lo < hi <= buf.Length && p < addrs.Length && buf[lo..hi] == job.pkt && addrs[p] == job.addr
    }

    /** The second half of the IPv4 handler: the packet is subject to the policy table. */
    method HandlePolicedV4(q: SendQueue, buf: array<Byte>, lo: nat, hi: nat, addrs: array<Address>, p: nat, ihl: nat,
                           src: Ip4, dst: Ip4, srcPort: Port, dstPort: Port, flags: Byte,
                           answers: Answers, now: nat, accepted: nat, ghost s: State)
      requires s.pc.Lookup? && Holds(buf, lo, hi, addrs, p, s.pc.job) && q.Valid()
      requires FullTcp4(s.pc.job.pkt) && ihl == HeaderLen(s.pc.job.pkt) && flags == FlagsOf(s.pc.job.pkt)
      requires Endpoints(s.pc.job.pkt) == OrigFlow(src, srcPort, dst, dstPort)
      requires Matches(s) && s.now == now && T.Bijective(s.tracker)
      modifies q, buf, addrs, tracker, policies, Handles()
      ensures Followed(q, s, Finish(s, Heard(answers)), hi - lo, accepted)
      ensures OnlySlice(buf, lo, hi, addrs, p)
    {
      hide Hijacked, Reversed, SetPort, Endpoints, KeyOf, Finish, NewFlow, T.Bijective, Le32, FlowKeyV4, FullTcp6, Wire, Sends, PassedOn, Pushed;
      SentSince(LineOf(q), s, Finish(s, Heard(answers)), hi - lo, accepted);
      ghost var job := s.pc.job;
      FinishLookup(s, Heard(answers));
      var key := FlowKeyV4(Le32(src, 0), Le32(dst, 0), srcPort, dstPort);
      KeyIsFromFields(job.pkt, src, dst, srcPort, dstPort);
      var policy := policies.Get(key);
      if policy.Some? {
        var retry := policy.value.kind == Undecided && IsConnectionStart(flags);
        if IsClosing(flags) || retry {
          policies.Delete(key);
          NewFlowV4(q, buf, lo, hi, addrs, p, ihl, key, src, dst, srcPort, dstPort, flags, answers, now, accepted,
                    s.(policies := s.policies - {key}), job);
          return;
        }
        if policy.value.kind == Intercept {
          InterceptedV4(q, buf, lo, hi, addrs, p, ihl, key, policy.value.port, src, dst, srcPort, dstPort, answers, now, accepted,
                        s.(pc := Check(job, policy.value.port)));
          return;
        }
        SendPass(q, buf, lo, hi, addrs[p], accepted);
        return;
      }
      NewFlowV4(q, buf, lo, hi, addrs, p, ihl, key, src, dst, srcPort, dstPort, flags, answers, now, accepted, s, job);
    }

    /** A flow the table says nothing of (any more). `s` is the machine just before it turns to it. */
    method NewFlowV4(q: SendQueue, buf: array<Byte>, lo: nat, hi: nat, addrs: array<Address>, p: nat, ihl: nat,
                     key: FlowKey, src: Ip4, dst: Ip4, srcPort: Port, dstPort: Port, flags: Byte,
                     answers: Answers, now: nat, accepted: nat, ghost s: State, ghost job: Job)
      requires Holds(buf, lo, hi, addrs, p, job) && q.Valid()
      requires FullTcp4(job.pkt) && ihl == HeaderLen(job.pkt) && flags == FlagsOf(job.pkt) && key == KeyOf(job.pkt)
      requires Endpoints(job.pkt) == OrigFlow(src, srcPort, dst, dstPort)
      requires Matches(s) && s.now == now && Sane(s) && T.Bijective(s.tracker)
      modifies q, buf, addrs, tracker, policies, Handles()
      ensures Followed(q, s, Finish(NewFlow(s, job), Heard(answers)), hi - lo, accepted)
      ensures OnlySlice(buf, lo, hi, addrs, p)
    {
      hide Hijacked, SetPort, Endpoints, KeyOf, Finish, NewFlow, Wire, Sends, PassedOn, Pushed;
      SentSince(LineOf(q), s, Finish(NewFlow(s, job), Heard(answers)), hi - lo, accepted);
      FinishNewFlow(s, job, Heard(answers));
      if IsClosing(flags) {
        SendPass(q, buf, lo, hi, addrs[p], accepted);
        return;
      }
      var kind := DecideNewFlow(IsConnectionStart(flags), answers.name, whitelist);
      if kind == Intercept {
        RegisteredV4(q, buf, lo, hi, addrs, p, ihl, key, src, dst, srcPort, dstPort, answers, now, accepted,
                     s.(pc := Register(job)));
        return;
      }
      policies.Set(key, kind, 0, now);
      SendPass(q, buf, lo, hi, addrs[p], accepted);
    }

    /** A flow recorded as intercepted: over its recorded port while that is mapped, else registered anew. */
    method InterceptedV4(q: SendQueue, buf: array<Byte>, lo: nat, hi: nat, addrs: array<Address>, p: nat, ihl: nat,
                         key: FlowKey, mapped: Port, src: Ip4, dst: Ip4, srcPort: Port, dstPort: Port,
                         answers: Answers, now: nat, accepted: nat, ghost s: State)
      requires s.pc.Check? && s.pc.port == mapped && Holds(buf, lo, hi, addrs, p, s.pc.job) && q.Valid()
      requires FullTcp4(s.pc.job.pkt) && ihl == HeaderLen(s.pc.job.pkt) && key == KeyOf(s.pc.job.pkt)
      requires Endpoints(s.pc.job.pkt) == OrigFlow(src, srcPort, dst, dstPort)
      requires Matches(s) && s.now == now && T.Bijective(s.tracker)
      modifies q, buf, addrs, tracker, policies, Handles()
      ensures Followed(q, s, Finish(s, Heard(answers)), hi - lo, accepted)
      ensures OnlySlice(buf, lo, hi, addrs, p)
    {
      hide Hijacked, SetPort, Endpoints, KeyOf, Finish, Wire, Sends, PassedOn, Pushed;
      SentSince(LineOf(q), s, Finish(s, Heard(answers)), hi - lo, accepted);
      FinishCheck(s, Heard(answers));
      if mapped != 0 {
        var live := tracker.HasMapped(mapped);
        if live {
          ghost var r := Finish(s, Heard(answers));
          HijackWithPort(q, buf, lo, hi, addrs, p, mapped, ihl, answers);
          if Heard(answers).sums.Some? {
            ghost var d := Datagram(Hijacked(s.pc.job.pkt, mapped, tproxyPort, answers.sums.value), HijackedAddr(s.pc.job.addr));
            assert Wire(r.outs[|s.outs|..]) == [d];
            PushSends(old(LineOf(q)), d, accepted);
          }
          return;
        }
      }
      RegisteredV4(q, buf, lo, hi, addrs, p, ihl, key, src, dst, srcPort, dstPort, answers, now, accepted,
                   s.(pc := Register(s.pc.job)));
    }

    /** Registers the flow, and records the port, or that the flow is to be let through. */
    method RegisteredV4(q: SendQueue, buf: array<Byte>, lo: nat, hi: nat, addrs: array<Address>, p: nat, ihl: nat,
                        key: FlowKey, src: Ip4, dst: Ip4, srcPort: Port, dstPort: Port,
                        answers: Answers, now: nat, accepted: nat, ghost s: State)
      requires s.pc.Register? && Holds(buf, lo, hi, addrs, p, s.pc.job) && q.Valid()
      requires FullTcp4(s.pc.job.pkt) && ihl == HeaderLen(s.pc.job.pkt) && key == KeyOf(s.pc.job.pkt)
      requires Endpoints(s.pc.job.pkt) == OrigFlow(src, srcPort, dst, dstPort)
      requires Matches(s) && s.now == now && T.Bijective(s.tracker)
      modifies q, buf, addrs, tracker, policies, Handles()
      ensures Followed(q, s, Finish(s, Heard(answers)), hi - lo, accepted)
      ensures OnlySlice(buf, lo, hi, addrs, p)
    {
      hide Hijacked, SetPort, Endpoints, KeyOf, Finish, Wire, Sends, PassedOn, Pushed;
      SentSince(LineOf(q), s, Finish(s, Heard(answers)), hi - lo, accepted);
      FinishRegister(s, Heard(answers));
      PortsAreNotZero(s.tracker, Endpoints(s.pc.job.pkt), s.pc.job.addr.ifIdx, s.pc.job.addr.subIfIdx, now);
      var m := HijackTCP(q, buf, lo, hi, addrs, p, OrigFlow(src, srcPort, dst, dstPort), ihl, answers, now, accepted);
      if m != 0 {
        ghost var r, job := Finish(s, Heard(answers)), s.pc.job;
        ghost var d := Datagram(Hijacked(job.pkt, m, tproxyPort, answers.sums.value), HijackedAddr(job.addr));
        assert Wire(r.outs[|s.outs|..]) == [d];
        PushSends(old(LineOf(q)), d, accepted);
        policies.Set(key, Intercept, m, now);
      } else {
        policies.Set(key, Pass, 0, now);
      }
    }

    /** UDP to port 443 from a whitelisted program is dropped, so that it falls back to TCP. */
    method HandleIPv4UDP(q: SendQueue, buf: array<Byte>, lo: nat, hi: nat, addrs: array<Address>, p: nat, ihl: nat,
                         answers: Answers, now: nat, accepted: nat, ghost s: State)
      requires lo < hi <= buf.Length && p < addrs.Length && q.Valid()
      requires var pkt := buf[lo..hi];
        |pkt| >= 20 && Version(pkt) == 4 && ihl == HeaderLen(pkt) && |pkt| >= ihl >= 20 && pkt[9] == 17
      requires Matches(s) && s.pc == Idle && s.now == now
      modifies q, Handles()
      ensures Followed(q, s, Process(s, buf[lo..hi], addrs[p], Heard(answers)), hi - lo, accepted)
    {
      hide Reversed, IsPrivate4, Process, Finish, Wire, Sends, PassedOn, Pushed;
      SentSince(LineOf(q), s, Process(s, buf[lo..hi], addrs[p], Heard(answers)), hi - lo, accepted);
      var pkt: Bytes := buf[lo..hi];
      ProcessByRoute(s, pkt, addrs[p], Heard(answers));
      if |pkt| < ihl + 8 {
        SendPass(q, buf, lo, hi, addrs[p], accepted);
        return;
      }
      var dstPort := U16(pkt, ihl + 2);
      if dstPort != 443 {
        SendPass(q, buf, lo, hi, addrs[p], accepted);
        return;
      }
      var dst := Ip4At(pkt, 16);
      if IsPrivate4(dst) {
        SendPass(q, buf, lo, hi, addrs[p], accepted);
        return;
      }
      if upstream == Some(dst) {
        SendPass(q, buf, lo, hi, addrs[p], accepted);
        return;
      }
      if answers.name.Some? && answers.name.value in whitelist {
        return;
      }
      SendPass(q, buf, lo, hi, addrs[p], accepted);
    }

    method HandleIPv6(q: SendQueue, buf: array<Byte>, lo: nat, hi: nat, addrs: array<Address>, p: nat,
                      answers: Answers, now: nat, accepted: nat, ghost s: State)
      requires lo < hi <= buf.Length && p < addrs.Length && q.Valid()
      requires Version(buf[lo..hi]) == 6
      requires Matches(s) && s.pc == Idle && s.now == now
      modifies q, policies, Handles()
      ensures Followed(q, s, Process(s, buf[lo..hi], addrs[p], Heard(answers)), hi - lo, accepted)
    {
      hide Reversed, IsPrivate6, Process, Finish, Wire, Sends, PassedOn, Pushed;
      SentSince(LineOf(q), s, Process(s, buf[lo..hi], addrs[p], Heard(answers)), hi - lo, accepted);
      var pkt: Bytes := buf[lo..hi];
      ProcessByRoute(s, pkt, addrs[p], Heard(answers));
      if |pkt| < 40 {
        SendPass(q, buf, lo, hi, addrs[p], accepted);
        return;
      }
      var next := pkt[6];
      if next == 6 {
        HandleIPv6TCP(q, buf, lo, hi, addrs, p, answers, now, accepted, s);
        return;
      }
      if next == 17 {
        HandleIPv6UDP(q, buf, lo, hi, addrs, p, answers, now, accepted, s);
        return;
      }
      SendPass(q, buf, lo, hi, addrs[p], accepted);
    }

    /** An intercepted IPv6 flow is blocked, so that the program falls back to IPv4. */
    method HandleIPv6TCP(q: SendQueue, buf: array<Byte>, lo: nat, hi: nat, addrs: array<Address>, p: nat,
                         answers: Answers, now: nat, accepted: nat, ghost s: State)
      requires lo < hi <= buf.Length && p < addrs.Length && q.Valid()
      requires var pkt := buf[lo..hi]; |pkt| >= 40 && Version(pkt) == 6 && pkt[6] == 6
      requires Matches(s) && s.pc == Idle && s.now == now
      modifies q, policies, Handles()
      ensures Followed(q, s, Process(s, buf[lo..hi], addrs[p], Heard(answers)), hi - lo, accepted)
    {
      hide Reversed, Hijacked, SetPort, IsPrivate6, Process, Finish, NewFlow, Wire, Sends, PassedOn, Pushed;
      SentSince(LineOf(q), s, Process(s, buf[lo..hi], addrs[p], Heard(answers)), hi - lo, accepted);
      var pkt: Bytes := buf[lo..hi];
      ProcessByRoute(s, pkt, addrs[p], Heard(answers));
      if |pkt| < 60 {
        SendPass(q, buf, lo, hi, addrs[p], accepted);
        return;
      }
      var srcPort, dstPort := U16(pkt, 40), U16(pkt, 42);
      var srcIP, dstIP := Ip16At(pkt, 8), Ip16At(pkt, 24);
      if IsPrivate6(dstIP) {
        SendPass(q, buf, lo, hi, addrs[p], accepted);
        return;
      }
      var flags := pkt[53];
      var key := FlowKey(srcIP, dstIP, srcPort, dstPort, 6);
      assert key == KeyOf(pkt) && flags == FlagsOf(pkt);
      PolicedV6(q, buf, lo, hi, addrs[p], key, flags, answers, now, accepted,
                s.(inputs := s.inputs + [Input(pkt, addrs[p], s.cfg.upstream)], pc := Lookup(Job(|s.inputs|, pkt, addrs[p]))));
    }

    method PolicedV6(q: SendQueue, buf: array<Byte>, lo: nat, hi: nat, addr: Address, key: FlowKey, flags: Byte,
                     answers: Answers, now: nat, accepted: nat, ghost s: State)
      requires lo < hi <= buf.Length && q.Valid()
      requires s.pc.Lookup? && s.pc.job.pkt == buf[lo..hi] && s.pc.job.addr == addr
      requires FullTcp6(s.pc.job.pkt) && key == KeyOf(s.pc.job.pkt) && flags == FlagsOf(s.pc.job.pkt)
      requires Matches(s) && s.now == now
      modifies q, policies, Handles()
      ensures Followed(q, s, Finish(s, Heard(answers)), hi - lo, accepted)
    {
      hide Hijacked, SetPort, KeyOf, Finish, NewFlow, Wire, Sends, PassedOn, Pushed;
      SentSince(LineOf(q), s, Finish(s, Heard(answers)), hi - lo, accepted);
      FinishLookup(s, Heard(answers));
      var policy := policies.Get(key);
      if policy.Some? {
        var retry := policy.value.kind == Undecided && IsConnectionStart(flags);
        if IsClosing(flags) || retry {
          policies.Delete(key);
          NewFlowV6(q, buf, lo, hi, addr, key, flags, answers, now, accepted, s.(policies := s.policies - {key}), s.pc.job);
          return;
        }
        if policy.value.kind == Intercept {
          return;
        }
        SendPass(q, buf, lo, hi, addr, accepted);
        return;
      }
      NewFlowV6(q, buf, lo, hi, addr, key, flags, answers, now, accepted, s, s.pc.job);
    }

    method NewFlowV6(q: SendQueue, buf: array<Byte>, lo: nat, hi: nat, addr: Address, key: FlowKey, flags: Byte,
                     answers: Answers, now: nat, accepted: nat, ghost s: State, ghost job: Job)
      requires lo < hi <= buf.Length && q.Valid()
      requires job.pkt == buf[lo..hi] && job.addr == addr
      requires FullTcp6(job.pkt) && key == KeyOf(job.pkt) && flags == FlagsOf(job.pkt)
      requires Matches(s) && s.now == now && Sane(s)
      modifies q, policies, Handles()
      ensures Followed(q, s, Finish(NewFlow(s, job), Heard(answers)), hi - lo, accepted)
    {
      hide Hijacked, SetPort, KeyOf, Finish, NewFlow, Wire, Sends, PassedOn, Pushed;
      SentSince(LineOf(q), s, Finish(NewFlow(s, job), Heard(answers)), hi - lo, accepted);
      FinishNewFlow(s, job, Heard(answers));
      if IsClosing(flags) {
        SendPass(q, buf, lo, hi, addr, accepted);
        return;
      }
      var kind := DecideNewFlow(IsConnectionStart(flags), answers.name, whitelist);
      policies.Set(key, kind, 0, now);
      if kind == Intercept {
        return;
      }
      SendPass(q, buf, lo, hi, addr, accepted);
    }

    method HandleIPv6UDP(q: SendQueue, buf: array<Byte>, lo: nat, hi: nat, addrs: array<Address>, p: nat,
                         answers: Answers, now: nat, accepted: nat, ghost s: State)
      requires lo < hi <= buf.Length && p < addrs.Length && q.Valid()
      requires var pkt := buf[lo..hi]; |pkt| >= 40 && Version(pkt) == 6 && pkt[6] == 17
      requires Matches(s) && s.pc == Idle && s.now == now
      modifies q, Handles()
      ensures Followed(q, s, Process(s, buf[lo..hi], addrs[p], Heard(answers)), hi - lo, accepted)
    {
      hide Reversed, IsPrivate6, Process, Finish, Wire, Sends, PassedOn, Pushed;
      SentSince(LineOf(q), s, Process(s, buf[lo..hi], addrs[p], Heard(answers)), hi - lo, accepted);
      var pkt: Bytes := buf[lo..hi];
      ProcessByRoute(s, pkt, addrs[p], Heard(answers));
      if |pkt| < 48 {
        SendPass(q, buf, lo, hi, addrs[p], accepted);
        return;
      }
      var dstPort := U16(pkt, 42);
      if dstPort != 443 {
        SendPass(q, buf, lo, hi, addrs[p], accepted);
        return;
      }
      var dstIP := Ip16At(pkt, 24);
      if IsPrivate6(dstIP) {
        SendPass(q, buf, lo, hi, addrs[p], accepted);
        return;
      }
      if answers.name.Some? && answers.name.value in whitelist {
        return;
      }
      SendPass(q, buf, lo, hi, addrs[p], accepted);
    }

    /** Any packet at all: the tables and the queue end up as the machine says, nothing outside the
        packet's own slice and address is written, and at most one packet of at most its size is queued. */
    method HandlePacket(q: SendQueue, buf: array<Byte>, lo: nat, hi: nat, addrs: array<Address>, p: nat,
                        answers: Answers, now: nat, accepted: nat, ghost s: State)
      requires lo <= hi <= buf.Length && p < addrs.Length && q.Valid()
      requires Matches(s) && s.pc == Idle && s.now == now && T.Bijective(s.tracker)
      modifies q, buf, addrs, tracker, policies, Handles()
      ensures Followed(q, s, Process(s, old(buf[lo..hi]), old(addrs[p]), Heard(answers)), hi - lo, accepted)
      ensures OnlySlice(buf, lo, hi, addrs, p)
    {
      hide Reversed, IsPrivate4, IsPrivate6, Process, Finish, Wire, Sends, PassedOn, Pushed;
      SentSince(LineOf(q), s, Process(s, buf[lo..hi], addrs[p], Heard(answers)), hi - lo, accepted);
      var pkt: Bytes := buf[lo..hi];
      ProcessByRoute(s, pkt, addrs[p], Heard(answers));
      if |pkt| < 1 {
        return;
      }
      var version := Version(pkt);
      if version == 6 {
        HandleIPv6(q, buf, lo, hi, addrs, p, answers, now, accepted, s);
        return;
      }
      if version != 4 || |pkt| < 20 {
        return;
      }
      var ihl := HeaderLen(pkt);
      if ihl < 20 || |pkt| < ihl {
        return;
      }
      var proto := pkt[9];
      if proto == 17 {
        HandleIPv4UDP(q, buf, lo, hi, addrs, p, ihl, answers, now, accepted, s);
        return;
      }
      if proto != 6 || |pkt| < ihl + 4 {
        return;
      }
      HandleIPv4TCP(q, buf, lo, hi, addrs, p, ihl, answers, now, accepted, s);
    }
  }

  lemma {:induction false} KeyIsFromFields(pkt: Bytes, src: Ip4, dst: Ip4, srcPort: Port, dstPort: Port)
    requires FullTcp4(pkt) && Endpoints(pkt) == OrigFlow(src, srcPort, dst, dstPort)
    ensures KeyOf(pkt) == FlowKeyV4(Le32(src, 0), Le32(dst, 0), srcPort, dstPort)
  {
    assert Le32(src, 0) == Le32(pkt, 12);
    assert Le32(dst, 0) == Le32(pkt, 16);
  }

  lemma {:induction false} PortsAreNotZero(t: Tracker, flow: OrigFlow, ifIdx: nat, subIfIdx: nat, now: nat)
    requires T.Bijective(t)
    ensures SetPort(t, flow, ifIdx, subIfIdx, now).1 != Some(0)
  {
    if flow in t.orig {
      assert t.orig[flow] in t.entries;
    }
  }
}
