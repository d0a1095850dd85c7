/** Handling one packet from reception to the end without interruption. */
module Handling {
  import opened Net
  import opened Histories
  import opened Packets
  import opened TrackerModel
  import opened PolicyModel
  import opened PacketLoop
  import opened LoopInvariants
  import opened RouteSafety
  import T = TrackerProofs

  // ---------------------------------------------------------------- one packet, start to finish

  function Rank(pc: Pc): nat {
    match pc
    case Idle => 0
    case Reverse(_) => 1
    case Quic(_) => 1
    case Record(_, _, _, _) => 1
    case Release(_, _) => 2
    case Register(_) => 3
    case Check(_, _) => 4
    case Decide(_) => 4
    case Forget(_) => 5
    case Lookup(_) => 6
  }

  lemma {:induction false} RankFalls(s: State, answers: Answers)
    requires Sane(s) && s.pc != Idle
    ensures Rank(Proceed(s, answers).pc) < Rank(s.pc)
  {
    hide Hijacked, Reversed, SetPort;
  }

  /** The loop works until it is done with the packet in hand. */
  function Finish(s: State, answers: Answers): (r: State)
    requires Sane(s)
    ensures Sane(r) && r.pc == Idle && r.cfg == s.cfg && r.now == s.now && r.inputs == s.inputs && s.outs <= r.outs
    decreases Rank(s.pc)
  {
    if s.pc == Idle then s
    else
      RankFalls(s, answers);
      Finish(Proceed(s, answers), answers)
  }

  function Process(s: State, pkt: Bytes, addr: Address, answers: Answers): (r: State)
    requires Sane(s) && s.pc == Idle
    ensures Sane(r) && r.pc == Idle && r.cfg == s.cfg && r.now == s.now && s.outs <= r.outs
  {
    Finish(Receive(s, pkt, addr), answers)
  }

  // ---------------------------------------------------------------- handling, branch by branch

  lemma {:induction false} FinishLookup(s: State, answers: Answers)
    requires Sane(s) && s.pc.Lookup?
    ensures var job, key, flags := s.pc.job, KeyOf(s.pc.job.pkt), FlagsOf(s.pc.job.pkt);
      Finish(s, answers) ==
        if key !in s.policies then Finish(NewFlow(s, job), answers)
        else if IsClosing(flags) || (s.policies[key].kind == Undecided && IsConnectionStart(flags)) then
          Finish(NewFlow(s.(policies := s.policies - {key}), job), answers)
        else if s.policies[key].kind != Intercept then Passed(s, job)
        else if FullTcp4(job.pkt) then Finish(s.(pc := Check(job, s.policies[key].port)), answers)
        else s.(pc := Idle)
  {
    var s1 := LookupStep(s, s.pc.job);
    assert Finish(s, answers) == Finish(s1, answers);
    if s1.pc.Forget? {
      assert Finish(s1, answers) == Finish(ForgetStep(s1, s1.pc.job), answers);
      assert s1.(policies := s.policies - {KeyOf(s.pc.job.pkt)}, pc := s.pc) == s.(policies := s.policies - {KeyOf(s.pc.job.pkt)});
    }
  }

  lemma {:induction false} FinishNewFlow(s: State, job: Job, answers: Answers)
    requires Sane(s) && FullTcp(job.pkt)
    ensures var kind := DecideNewFlow(IsConnectionStart(FlagsOf(job.pkt)), answers.name, s.cfg.whitelist);
      var decided := s.(policies := s.policies[KeyOf(job.pkt) := Policy(kind, 0, s.now)]);
      Finish(NewFlow(s, job), answers) ==
        if IsClosing(FlagsOf(job.pkt)) then Passed(s, job)
        else if kind != Intercept then Passed(decided, job)
        else if FullTcp4(job.pkt) then Finish(s.(pc := Register(job)), answers)
        else decided.(pc := Idle)
  {
    var s1 := NewFlow(s, job);
    if s1.pc.Decide? {
      var s2 := DecideStep(s1, job, answers);
      assert Finish(s1, answers) == Finish(s2, answers);
      if s2.pc.Record? {
        var s3 := RecordStep(s2, job, s2.pc.kind, 0, s2.pc.send);
        assert Finish(s2, answers) == Finish(s3, answers) == s3;
      }
    }
  }

  lemma {:induction false} FinishRegister(s: State, answers: Answers)
    requires Sane(s) && s.pc.Register?
    ensures var job, key := s.pc.job, KeyOf(s.pc.job.pkt);
      var (t, mapped) := SetPort(s.tracker, Endpoints(job.pkt), job.addr.ifIdx, job.addr.subIfIdx, s.now);
      Finish(s, answers) ==
        if mapped.None? then
          Passed(s, job).(tracker := t, policies := s.policies[key := Policy(Pass, 0, s.now)])
        else if answers.sums.None? then
          s.(tracker := Delete(t, Local(mapped.value)), policies := s.policies[key := Policy(Pass, 0, s.now)], pc := Idle)
        else
          Sent(s, job, Hijacked(job.pkt, mapped.value, s.cfg.tproxy, answers.sums.value), HijackedAddr(job.addr))
          .(tracker := t, policies := s.policies[key := Policy(Intercept, mapped.value, s.now)])
  {
    hide Hijacked, SetPort;
    var job := s.pc.job;
    var s1 := RegisterStep(s, job, answers);
    assert Finish(s, answers) == Finish(s1, answers);
    if s1.pc.Release? {
      var s2 := ReleaseStep(s1, job, s1.pc.port);
      var s3 := RecordStep(s2, job, Pass, 0, false);
      assert Finish(s1, answers) == Finish(s2, answers);
      assert Finish(s2, answers) == Finish(s3, answers) == s3;
    } else {
      var s2 := RecordStep(s1, job, s1.pc.kind, s1.pc.port, false);
      assert Finish(s1, answers) == Finish(s2, answers) == s2;
    }
  }

  lemma {:induction false} FinishCheck(s: State, answers: Answers)
    requires Sane(s) && s.pc.Check?
    ensures var job := s.pc.job;
      Finish(s, answers) ==
        if !HasMapped(s.tracker, s.pc.port) then Finish(s.(pc := Register(job)), answers)
        else if answers.sums.None? then s.(pc := Idle)
        else Sent(s, job, Hijacked(job.pkt, s.pc.port, s.cfg.tproxy, answers.sums.value), HijackedAddr(job.addr))
  {
    hide Hijacked;
    var s1 := CheckStep(s, s.pc.job, s.pc.port, answers);
    assert Finish(s, answers) == Finish(s1, answers);
  }

  /** No port is left for the flow of an IPv4 packet. */
  predicate Exhausted(s: State, pkt: Bytes)
    requires FullTcp4(pkt)
  {
    Endpoints(pkt) !in s.tracker.orig && |s.tracker.entries| == T.Capacity(s.cfg.tproxy)
  }

  /** Registering a flow and hijacking its packet is all or nothing. Either the flow is mapped, its port
      recorded, and the packet sent rewritten to that port; or it is not mapped, it is recorded to be let
      through, and the packet is sent unchanged if the ports had run out, and else (its checksums could
      not be computed) not sent. */
  lemma {:induction false} HijackIsAllOrNothing(s: State, answers: Answers)
    requires Well(s) && s.pc.Register?
    ensures var job, flow, key := s.pc.job, Endpoints(s.pc.job.pkt), KeyOf(s.pc.job.pkt);
      var r := Finish(s, answers);
      var exhausted := Exhausted(s, job.pkt);
      && key in r.policies
      && (flow in r.tracker.orig <==> !exhausted && answers.sums.Some?)
      && (if flow in r.tracker.orig then
            var key0 := r.tracker.orig[flow];
            && key0 in r.tracker.entries && r.tracker.entries[key0].flow == flow
            && r.policies[key] == Policy(Intercept, key0.port, s.now)
            && r.outs == s.outs + [Output(job.idx, Hijacked(job.pkt, key0.port, s.cfg.tproxy, answers.sums.value),
                                          HijackedAddr(job.addr))]
          else
            && r.policies[key] == Policy(Pass, 0, s.now)
            && r.outs == s.outs + if exhausted then [Output(job.idx, job.pkt, job.addr)] else [])
  {
    hide Hijacked, Finish, SetPort, Endpoints, KeyOf;
    var job, flow := s.pc.job, Endpoints(s.pc.job.pkt);
    FinishRegister(s, answers);
    RegisterMapsFlow(s.tracker, flow, job.addr.ifIdx, job.addr.subIfIdx, s.now);
    var (t, mapped) := SetPort(s.tracker, flow, job.addr.ifIdx, job.addr.subIfIdx, s.now);
    if mapped.Some? {
      T.ApplyKeepsBijection(t, T.Delete(Local(mapped.value)));
    }
  }

  lemma {:induction false} RegisterMapsFlow(t: Tracker, flow: OrigFlow, ifIdx: nat, subIfIdx: nat, now: nat)
    requires T.Bijective(t)
    ensures var (t1, mapped) := SetPort(t, flow, ifIdx, subIfIdx, now);
      && T.Bijective(t1)
      && (mapped.None? <==> flow !in t.orig && |t.entries| == T.Capacity(t.reserved))
      && (flow in t1.orig <==> mapped.Some?)
      && (mapped.Some? ==> t1.orig[flow] == Local(mapped.value) && Local(mapped.value) in t1.entries
                           && t1.entries[Local(mapped.value)].flow == flow)
  {
    T.ApplyKeepsBijection(t, T.Set(flow, ifIdx, subIfIdx, now));
    if flow !in t.orig {
      T.AllocationIsComplete(t, flow, ifIdx, subIfIdx, now);
    }
  }

  lemma {:induction false} ProcessByRoute(s: State, pkt: Bytes, addr: Address, answers: Answers)
    requires Sane(s) && s.pc == Idle
    ensures var job := Job(|s.inputs|, pkt, addr);
      var s1 := s.(inputs := s.inputs + [Input(pkt, addr, s.cfg.upstream)]);
      Process(s, pkt, addr, answers) ==
        match RouteOf(pkt, s.cfg)
        case Discard => s1
        case Through => Passed(s1, job)
        case Filter => if answers.name.Some? && answers.name.value in s.cfg.whitelist then s1 else Passed(s1, job)
        case Reply => ReverseStep(s1, job, answers)
        case Policed => Finish(s1.(pc := Lookup(job)), answers)
  {
    hide Reversed;
    var r := Receive(s, pkt, addr);
    if r.pc.Quic? {
      assert Finish(r, answers) == Finish(QuicStep(r, r.pc.job, answers), answers);
    } else if r.pc.Reverse? {
      var s2 := ReverseStep(r, r.pc.job, answers);
      assert Finish(r, answers) == Finish(s2, answers) == s2;
    }
  }

  /** The program that opens a flow was found, and it is on the whitelist. */
  predicate Listed(s: State, answers: Answers) {
    answers.name.Some? && answers.name.value in s.cfg.whitelist
  }

  /** What the first SYN of a flow decides, and what becomes of it: without a name it passes and the next
      SYN may decide; with a name off the whitelist it passes for good; with a name on it an IPv6 flow is
      blocked and an IPv4 flow is mapped to a port, recorded with it and sent on rewritten to it, unless
      no port is left, when it passes, or there are no checksums, when it is dropped. */
  lemma {:induction false} FirstSynDecides(s: State, pkt: Bytes, addr: Address, answers: Answers)
    requires Well(s) && s.pc == Idle && RouteOf(pkt, s.cfg) == Policed && Opens(pkt)
    requires KeyOf(pkt) in s.policies ==> s.policies[KeyOf(pkt)].kind == Undecided
    ensures var r, key := Process(s, pkt, addr, answers), KeyOf(pkt);
      && key in r.policies
      && (!Listed(s, answers) ==>
            && r.policies[key] == Policy(if answers.name.None? then Undecided else Pass, 0, s.now)
            && r.outs == s.outs + [Output(|s.inputs|, pkt, addr)] && r.tracker == s.tracker)
      && (Listed(s, answers) && FullTcp6(pkt) ==>
            r.policies[key] == Policy(Intercept, 0, s.now) && r.tracker == s.tracker && r.outs == s.outs)
      && (Listed(s, answers) && FullTcp4(pkt) && Exhausted(s, pkt) ==>
            && Endpoints(pkt) !in r.tracker.orig
            && r.policies[key] == Policy(Pass, 0, s.now) && r.outs == s.outs + [Output(|s.inputs|, pkt, addr)])
      && (Listed(s, answers) && FullTcp4(pkt) && !Exhausted(s, pkt) && answers.sums.None? ==>
            Endpoints(pkt) !in r.tracker.orig && r.policies[key] == Policy(Pass, 0, s.now) && r.outs == s.outs)
      && (Listed(s, answers) && FullTcp4(pkt) && !Exhausted(s, pkt) && answers.sums.Some? ==>
            Endpoints(pkt) in r.tracker.orig &&
            (var m := r.tracker.orig[Endpoints(pkt)].port;
             && r.policies[key] == Policy(Intercept, m, s.now)
             && r.outs == s.outs + [Output(|s.inputs|, Hijacked(pkt, m, s.cfg.tproxy, answers.sums.value), HijackedAddr(addr))]))
  {
    hide Hijacked, Finish, Process, Endpoints, KeyOf, SetPort, NewFlow, RouteOf, GoodTable;
    var job := Job(|s.inputs|, pkt, addr);
    var s1 := s.(inputs := s.inputs + [Input(pkt, addr, s.cfg.upstream)], pc := Lookup(job));
    var s2 := if KeyOf(pkt) in s.policies then s1.(policies := s1.policies - {KeyOf(pkt)}) else s1;
    ProcessByRoute(s, pkt, addr, answers);
    FinishLookup(s1, answers);
    FinishNewFlow(s2, job, answers);
    assert Process(s, pkt, addr, answers) == Finish(NewFlow(s2, job), answers);
    var kind := DecideNewFlow(true, answers.name, s.cfg.whitelist);
    if kind == Intercept && FullTcp4(pkt) {
      RegisteringIsWell(s, s2.(pc := Register(job)));
      HijackIsAllOrNothing(s2.(pc := Register(job)), answers);
    }
  }

  /** A packet in mid-stream of a flow the table says nothing of fixes that the flow is let through. */
  lemma {:induction false} MidStreamPasses(s: State, pkt: Bytes, addr: Address, answers: Answers)
    requires Sane(s) && s.pc == Idle && RouteOf(pkt, s.cfg) == Policed && KeyOf(pkt) !in s.policies
    requires !IsConnectionStart(FlagsOf(pkt)) && !IsClosing(FlagsOf(pkt))
    ensures var r := Process(s, pkt, addr, answers);
      && r.policies == s.policies[KeyOf(pkt) := Policy(Pass, 0, s.now)] && r.tracker == s.tracker
      && r.outs == s.outs + [Output(|s.inputs|, pkt, addr)]
  {
    hide Finish, Process, KeyOf, NewFlow, RouteOf;
    var job := Job(|s.inputs|, pkt, addr);
    var s1 := s.(inputs := s.inputs + [Input(pkt, addr, s.cfg.upstream)], pc := Lookup(job));
    ProcessByRoute(s, pkt, addr, answers);
    FinishLookup(s1, answers);
    FinishNewFlow(s1, job, answers);
  }

  lemma {:induction false} RegisteringIsWell(s: State, r: State)
    requires Well(s) && r.pc.Register? && RouteOf(r.pc.job.pkt, s.cfg) == Policed && FullTcp4(r.pc.job.pkt)
    requires r.tracker == s.tracker && r.cfg == s.cfg && r.policies.Keys <= s.policies.Keys
    requires forall key <- r.policies :: r.policies[key] == s.policies[key]
    requires r.inputs == s.inputs + [Input(r.pc.job.pkt, r.pc.job.addr, s.cfg.upstream)] && r.pc.job.idx == |s.inputs|
    ensures Well(r)
  {
    KeyMeansEndpoints(r.pc.job.pkt);
  }

  /** A FIN or RST on any flow the table governs ends what the table says of it, and itself goes out
      unchanged, though the flow be intercepted. */
  lemma {:induction false} ClosingPacketPasses(s: State, pkt: Bytes, addr: Address, answers: Answers)
    requires Sane(s) && s.pc == Idle && RouteOf(pkt, s.cfg) == Policed && IsClosing(FlagsOf(pkt))
    ensures var r := Process(s, pkt, addr, answers);
      && r.policies == s.policies - {KeyOf(pkt)} && r.tracker == s.tracker
      && r.outs == s.outs + [Output(|s.inputs|, pkt, addr)]
  {
    hide Finish, Process, KeyOf, NewFlow, RouteOf;
    var job := Job(|s.inputs|, pkt, addr);
    var s1 := s.(inputs := s.inputs + [Input(pkt, addr, s.cfg.upstream)], pc := Lookup(job));
    var s2 := if KeyOf(pkt) in s.policies then s1.(policies := s1.policies - {KeyOf(pkt)}) else s1;
    ProcessByRoute(s, pkt, addr, answers);
    FinishLookup(s1, answers);
    FinishNewFlow(s2, job, answers);
    assert KeyOf(pkt) !in s.policies ==> s.policies - {KeyOf(pkt)} == s.policies;
  }

  lemma {:induction false} FinishIsRun(s0: State, steps: History<Step>, answers: Answers) returns (longer: History<Step>)
    requires Sane(s0)
    ensures Run(s0, longer) == Finish(Run(s0, steps), answers)
    decreases Rank(Run(s0, steps).pc)
  {
    hide Proceed;
    var s := Run(s0, steps);
    if s.pc == Idle {
      longer := steps;
    } else {
      RankFalls(s, answers);
      longer := FinishIsRun(s0, Then(steps, Work(answers)), answers);
    }
  }

  /** Uninterrupted handling is one of the interleavings: what holds of all runs holds of it. */
  lemma {:induction false} ProcessIsRun(s: State, pkt: Bytes, addr: Address, answers: Answers) returns (steps: History<Step>)
    requires Sane(s) && s.pc == Idle
    ensures Run(s, steps) == Process(s, pkt, addr, answers)
  {
    hide Receive, Finish;
    steps := FinishIsRun(s, Then(Start, Packet(pkt, addr)), answers);
    assert Run(s, Then(Start, Packet(pkt, addr))) == Receive(s, pkt, addr);
  }

  lemma {:induction false} ProcessKeepsInvariants(s: State, pkt: Bytes, addr: Address, answers: Answers)
    requires Well(s) && s.pc == Idle
    ensures Well(Process(s, pkt, addr, answers))
    ensures Ordered(s) ==> Ordered(Process(s, pkt, addr, answers))
  {
    hide Process, GoodPc, GoodTable, Ordered;
    var steps := ProcessIsRun(s, pkt, addr, answers);
    RunsStayWell(s, steps);
    if Ordered(s) {
      RunsStayOrdered(s, steps);
    }
  }

  // ---------------------------------------------------------------- replies go home

  /** Whichever flows are live: a reply of the proxy on the mapped port of flow `f` is sent on, once,
      from the destination of `f` to its source, out of the interface `f` came in by, with nothing but
      endpoints and checksums changed. */
  lemma {:induction false} RepliesGoHome(s: State, f: OrigFlow, reply: Bytes, addr: Address, answers: Answers)
    requires Well(s) && s.pc == Idle && f in s.tracker.orig && answers.sums.Some?
    requires FullTcp4(reply) && Endpoints(reply) == Swap(ToProxy(s.tracker.orig[f].port, s.cfg.tproxy))
    ensures var r := Process(s, reply, addr, answers);
      && |r.outs| == |s.outs| + 1
      && (var o := r.outs[|s.outs|];
          && FullTcp4(o.pkt) && Endpoints(o.pkt) == Swap(f) && SameElsewhere(reply, o.pkt)
          && U16(o.pkt, 10) == answers.sums.value.ip && U16(o.pkt, HeaderLen(reply) + 16) == answers.sums.value.tcp
          && o.addr.ifIdx == s.tracker.entries[s.tracker.orig[f]].ifIdx
          && o.addr.subIfIdx == s.tracker.entries[s.tracker.orig[f]].subIfIdx
          && o.addr.outbound == o.addr.loopback == (f.srcIP[0] == 127) && o.addr.rest == addr.rest)
      && r.tracker == s.tracker && r.policies == s.policies
  {
    hide WithEndpoints, WithSums, SameElsewhere;
    var target := s.tracker.entries[s.tracker.orig[f]];
    RewritingIsNat(reply, Swap(target.flow), answers.sums.value);
    var s1 := Receive(s, reply, addr);
    assert RouteOf(reply, s.cfg) == Reply;
    assert s1.pc == Reverse(Job(|s.inputs|, reply, addr));
    var s2 := ReverseStep(s1, s1.pc.job, answers);
    assert Finish(s1, answers) == Finish(s2, answers);
    assert Finish(s2, answers) == s2;
  }
}
