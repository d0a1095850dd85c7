/** From the hijacked SYN of a client to the server that is dialled for it and the reply that comes home. */
module RoundTrips {
  import opened Net
  import opened Histories
  import opened Packets
  import opened TrackerModel
  import opened PolicyModel
  import opened PacketLoop
  import opened LoopInvariants
  import opened RouteSafety
  import opened LiveFlows
  import opened Handling
  import opened OnTheWire
  import T = TrackerProofs
  import Proxy = TProxies

  /** The SYN of a new flow of a listed program, when a port is left and checksums can be computed. */
  predicate GetsHijacked(s: State, syn: Bytes, answers: Answers) {
    && s.pc == Idle && FullTcp4(syn) && Opens(syn) && RouteOf(syn, s.cfg) == Policed
    && (KeyOf(syn) in s.policies ==> s.policies[KeyOf(syn)].kind == Undecided)
    && Endpoints(syn) !in s.tracker.orig && !Exhausted(s, syn)
    && Listed(s, answers) && answers.sums.Some?
  }

  /** It goes out rewritten to a mapped port, and the mapping remembers by which interface it came in. */
  lemma {:induction false} SynIsMapped(s: State, syn: Bytes, addr: Address, answers: Answers)
    requires Well(s) && GetsHijacked(s, syn, answers)
    ensures var r, flow := Process(s, syn, addr, answers), Endpoints(syn);
      && Well(r) && r.pc == Idle && flow in r.tracker.orig
      && r.tracker.orig[flow] == Local(r.tracker.orig[flow].port)
      && r.tracker.orig[flow] in r.tracker.entries
      && r.tracker.entries[r.tracker.orig[flow]] == ConnTarget(flow, addr.ifIdx, addr.subIfIdx, s.now)
      && r.outs == s.outs + [Output(|s.inputs|, Hijacked(syn, r.tracker.orig[flow].port, s.cfg.tproxy, answers.sums.value),
                                    HijackedAddr(addr))]
  {
    hide Process, Finish, KeyOf, RouteOf, Endpoints, GoodTable, GoodPc, T.Capacity, T.Bijective;
    var reg := SynRegisters(s, syn, addr, answers);
    RegisteringMaps(reg, answers);
    ProcessKeepsInvariants(s, syn, addr, answers);
  }

  lemma {:induction false} SynRegisters(s: State, syn: Bytes, addr: Address, answers: Answers) returns (reg: State)
    requires Well(s) && GetsHijacked(s, syn, answers)
    ensures Sane(reg) && reg.pc == Register(Job(|s.inputs|, syn, addr))
    ensures reg.tracker == s.tracker && reg.outs == s.outs && reg.cfg == s.cfg && reg.now == s.now
    ensures Process(s, syn, addr, answers) == Finish(reg, answers)
  {
    hide Process, Finish, KeyOf, NewFlow, RouteOf, Endpoints, GoodTable, GoodPc, T.Capacity, T.Bijective;
    var job := Job(|s.inputs|, syn, addr);
    var s1 := s.(inputs := s.inputs + [Input(syn, addr, s.cfg.upstream)], pc := Lookup(job));
    var s2 := if KeyOf(syn) in s.policies then s1.(policies := s1.policies - {KeyOf(syn)}) else s1;
    ProcessByRoute(s, syn, addr, answers);
    FinishLookup(s1, answers);
    FinishNewFlow(s2, job, answers);
    reg := s2.(pc := Register(job));
  }

  lemma {:induction false} RegisteringMaps(s: State, answers: Answers)
    requires Sane(s) && s.pc.Register? && T.Bijective(s.tracker) && s.tracker.reserved == s.cfg.tproxy
    requires Endpoints(s.pc.job.pkt) !in s.tracker.orig && !Exhausted(s, s.pc.job.pkt) && answers.sums.Some?
    ensures var r, job, flow := Finish(s, answers), s.pc.job, Endpoints(s.pc.job.pkt);
      && flow in r.tracker.orig
      && r.tracker.orig[flow] == Local(r.tracker.orig[flow].port)
      && r.tracker.orig[flow] in r.tracker.entries
      && r.tracker.entries[r.tracker.orig[flow]] == ConnTarget(flow, job.addr.ifIdx, job.addr.subIfIdx, s.now)
      && r.outs == s.outs + [Output(job.idx, Hijacked(job.pkt, r.tracker.orig[flow].port, s.cfg.tproxy, answers.sums.value),
                                    HijackedAddr(job.addr))]
  {
    hide Finish, Hijacked, KeyOf, Endpoints, SetPort, T.Capacity, T.Bijective;
    var job := s.pc.job;
    FinishRegister(s, answers);
    T.AllocationIsComplete(s.tracker, Endpoints(job.pkt), job.addr.ifIdx, job.addr.subIfIdx, s.now);
    var (t, mapped) := SetPort(s.tracker, Endpoints(job.pkt), job.addr.ifIdx, job.addr.subIfIdx, s.now);
    assert mapped.Some? && t.orig[Endpoints(job.pkt)] == Local(mapped.value);
  }

  lemma {:induction false} MappingOutlivesRun(s: State, steps: History<Step>, flow: OrigFlow)
    requires Well(s) && flow in s.tracker.orig && s.tracker.orig[flow] in s.tracker.entries
    requires T.StaysMapped(s.tracker, TrackerHistory(s, steps), s.tracker.orig[flow])
    ensures var r := Run(s, steps);
      && Well(r) && flow in r.tracker.orig && r.tracker.orig[flow] == s.tracker.orig[flow]
      && r.tracker.orig[flow] in r.tracker.entries
      && r.tracker.entries[r.tracker.orig[flow]] == s.tracker.entries[s.tracker.orig[flow]]
  {
    hide TrackerHistory, T.Run, GoodTable, GoodPc;
    RunsStayWell(s, steps);
    LoopRunsTracker(s, steps);
    T.MappingPersists(s.tracker, TrackerHistory(s, steps), s.tracker.orig[flow]);
  }

  /** `reply` is a packet of the local proxy from its port `tproxy` to port `m` of 127.0.0.1. */
  predicate IsReplyTo(reply: Bytes, m: Port, tproxy: Port) {
    && IsTcp4(reply) && reply[12..16] == [127, 0, 0, 1] && reply[16..20] == [127, 0, 0, 1]
    && var tcp := reply[0] % 16 * 4; U16(reply, tcp) == tproxy && U16(reply, tcp + 2) == m
  }

  /** `pkt` is `reply` with its endpoints changed to lead from the destination of `syn` to its source. */
  ghost predicate IsAnswerTo(pkt: Bytes, reply: Bytes, syn: Bytes)
    requires IsTcp4(reply) && IsTcp4(syn)
  {
    var to, fro := syn[0] % 16 * 4, reply[0] % 16 * 4;
    && |pkt| == |reply|
    && pkt[12..16] == syn[16..20] && pkt[16..20] == syn[12..16]
    && U16(pkt, fro) == U16(syn, to + 2) && U16(pkt, fro + 2) == U16(syn, to)
    && forall k :: 0 <= k < |reply| && !(10 <= k < 20) && !(fro <= k < fro + 4) && !(fro + 16 <= k < fro + 18) ==>
         pkt[k] == reply[k]
  }

  /** There and back. A client's SYN goes out to the local proxy from some port, on the loopback path; whatever
      happens then, as long as its mapping is not released, a reply of the proxy to that port leaves from the
      server the client meant to the client, by the interface the SYN came in on, on the loopback path only if
      the client is there, and otherwise unchanged. */
  lemma {:induction false} ThereAndBack(s: State, syn: Bytes, addr: Address, answers: Answers, steps: History<Step>,
                                        reply: Bytes, replyAddr: Address, sums: Answers)
    requires Well(s) && GetsHijacked(s, syn, answers) && sums.sums.Some?
    requires var s1 := Process(s, syn, addr, answers);
      && Endpoints(syn) in s1.tracker.orig
      && T.StaysMapped(s1.tracker, TrackerHistory(s1, steps), s1.tracker.orig[Endpoints(syn)])
      && Run(s1, steps).pc == Idle
      && IsReplyTo(reply, s1.tracker.orig[Endpoints(syn)].port, s.cfg.tproxy)
    ensures var s1 := Process(s, syn, addr, answers);
      && |s1.outs| == |s.outs| + 1
      && IsSentToProxy(s1.outs[|s.outs|], Input(syn, addr, s.cfg.upstream), s1.tracker.orig[Endpoints(syn)].port, s.cfg.tproxy)
    ensures var s2 := Run(Process(s, syn, addr, answers), steps);
      var r := Process(s2, reply, replyAddr, sums);
      && |r.outs| == |s2.outs| + 1
      && var o := r.outs[|s2.outs|];
         && IsTcp4(syn) && IsAnswerTo(o.pkt, reply, syn)
         && o.addr.ifIdx == addr.ifIdx && o.addr.subIfIdx == addr.subIfIdx && o.addr.rest == replyAddr.rest
         && o.addr.outbound == o.addr.loopback == (syn[12] == 127)
  {
    hide Process, Run, TrackerHistory, Endpoints, SameElsewhere, GetsHijacked, GoodTable, GoodPc, T.StaysMapped;
    hide Hijacked, HijackedAddr, IsSentToProxy, IsAnswerTo, IsReplyTo;
    IsSyn(s, syn, answers);
    var flow := Endpoints(syn);
    SynIsMapped(s, syn, addr, answers);
    var s1 := Process(s, syn, addr, answers);
    var port := s1.tracker.orig[flow].port;
    HijackOnTheWire(s1.outs[|s.outs|], Input(syn, addr, s.cfg.upstream), port, s.cfg.tproxy, answers.sums.value);
    MappingOutlivesRun(s1, steps, flow);
    var s2 := Run(s1, steps);
    ReplyEndpoints(reply, port, s.cfg.tproxy);
    RepliesGoHome(s2, flow, reply, replyAddr, sums);
    AnswerOnTheWire(Process(s2, reply, replyAddr, sums).outs[|s2.outs|].pkt, reply, syn);
  }

  lemma {:induction false} ReplyEndpoints(reply: Bytes, m: Port, tproxy: Port)
    requires IsReplyTo(reply, m, tproxy)
    ensures FullTcp4(reply) && Endpoints(reply) == Swap(ToProxy(m, tproxy))
  {
  }

  lemma {:induction false} AnswerOnTheWire(pkt: Bytes, reply: Bytes, syn: Bytes)
    requires FullTcp4(pkt) && FullTcp4(reply) && FullTcp4(syn)
    requires Endpoints(pkt) == Swap(Endpoints(syn)) && SameElsewhere(reply, pkt)
    ensures IsTcp4(reply) && IsTcp4(syn) && IsAnswerTo(pkt, reply, syn) && Endpoints(syn).srcIP[0] == syn[12]
  {
    assert !IsEndpointByte(reply, 0) && pkt[0] == reply[0];
  }

  /** A connection for `syn` is dialled to its destination, or on port 443 to the host it names, if it does. */
  predicate IsDialledFor(dialled: Option<Proxy.Target>, syn: Bytes, name: Option<Bytes>)
    requires IsTcp4(syn)
  {
    var port := U16(syn, syn[0] % 16 * 4 + 2);
    if syn[16..20] == [0, 0, 0, 0] || port == 0 then dialled.None?
    else if port == 443 && name.Some? then dialled == Some(Proxy.ByName(name.value, 443))
    else dialled == Some(Proxy.ByAddress(syn[16..20], port))
  }

  /** And the server dialled is the one the client meant: after its SYN was hijacked, as long as its mapping is not
      released, a handler finds the mapping of the port the SYN was sent from, and what handlers dial for the flow
      found is the address and port in the SYN, or on port 443 the host name the client gives. */
  lemma {:induction false} MeantServerIsDialled(s: State, syn: Bytes, addr: Address, answers: Answers, steps: History<Step>)
    requires Well(s) && GetsHijacked(s, syn, answers)
    requires var s1 := Process(s, syn, addr, answers);
      && Endpoints(syn) in s1.tracker.orig
      && T.StaysMapped(s1.tracker, TrackerHistory(s1, steps), s1.tracker.orig[Endpoints(syn)])
    ensures var s1 := Process(s, syn, addr, answers);
      var m := s1.tracker.orig[Endpoints(syn)].port;
      var entries, key := Run(s1, steps).tracker.entries, ConnKey([127, 0, 0, 1], m);
      && |s1.outs| == |s.outs| + 1 && IsSentToProxy(s1.outs[|s.outs|], Input(syn, addr, s.cfg.upstream), m, s.cfg.tproxy)
      && key in entries && IsTcp4(syn)
      && forall dialled, name :: Proxy.Meant(dialled, entries[key].flow, name) <==> IsDialledFor(dialled, syn, name)
  {
    hide Process, Run, TrackerHistory, GetsHijacked, GoodTable, GoodPc, T.StaysMapped;
    hide Hijacked, HijackedAddr, IsSentToProxy;
    IsSyn(s, syn, answers);
    var flow := Endpoints(syn);
    SynIsMapped(s, syn, addr, answers);
    var s1 := Process(s, syn, addr, answers);
    HijackOnTheWire(s1.outs[|s.outs|], Input(syn, addr, s.cfg.upstream), s1.tracker.orig[flow].port, s.cfg.tproxy,
                    answers.sums.value);
    MappingOutlivesRun(s1, steps, flow);
  }

  lemma {:induction false} IsSyn(s: State, syn: Bytes, answers: Answers)
    requires GetsHijacked(s, syn, answers)
    ensures FullTcp4(syn) && s.pc == Idle && answers.sums.Some?
  {
  }
}
