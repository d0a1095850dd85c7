/** Why some of the promises carry a condition: a run in which a port recorded in the policy table has become
    the port of another flow, sweeps that a later packet can tell, and a handler that takes a mapping away from
    another. */
module Counterexamples {
  import opened Net
  import opened Histories
  import opened Packets
  import opened TrackerModel
  import opened PolicyModel
  import opened PacketLoop
  import opened RouteSafety
  import opened LoopInvariants
  import opened LiveFlows
  import opened Handling
  import opened Sweeps
  import H = Handlers
  import T = TrackerProofs

  const TPROXY: Port := 7893

  /** A SYN from 192.168.1.10, port `srcPort`, to 1.1.1.1, port 443. */
  function Syn(srcPort: Port): Bytes {
    [0x45, 0, 0, 40, 0, 0, 0, 0, 64, 6, 0, 0, 192, 168, 1, 10, 1, 1, 1, 1] +
    PutU16(srcPort) + PutU16(443) + [0, 0, 0, 0, 0, 0, 0, 0, 0x50, 2, 0, 0, 0, 0, 0, 0]
  }

  const CFG := Config(None, TPROXY, {"app.exe"})
  const ADDR := Address(true, false, 0, 0, [])
  const YES := Answers(Some("app.exe"), Some(Sums(0, 0)))

  lemma {:induction false} SynFacts(srcPort: Port)
    requires srcPort != TPROXY
    ensures var p := Syn(srcPort);
      && FullTcp4(p) && RouteOf(p, CFG) == Policed && SrcPort(p) == srcPort
      && IsConnectionStart(FlagsOf(p)) && !IsClosing(FlagsOf(p))
      && KeyOf(p).srcPort == srcPort
  {
    var p := Syn(srcPort);
    assert p[0] == 0x45 && p[9] == 6 && p[33] == 2;
    assert p[16..20] == [1, 1, 1, 1];
    assert p[20] == srcPort / 0x100 && p[21] == srcPort % 0x100;
  }

  /** Receive a packet and work on it four times: look its policy up, decide or check it, register
      its flow, and record the port. */
  function Connect(steps: History<PacketLoop.Step>, srcPort: Port): History<PacketLoop.Step> {
    Then(Then(Then(Then(Then(steps, Packet(Syn(srcPort), ADDR)), Work(YES)), Work(YES)), Work(YES)), Work(YES))
  }

  /** The loop is waiting, no flow is mapped, the cursor stands at `cursor`, and the policy of `key`,
      if there is one, is to intercept. */
  ghost predicate Ready(s: State, cursor: Port, key: FlowKey) {
    && s.pc == Idle && s.cfg == CFG && s.now == 0
    && s.tracker == T.Idle(TPROXY, 0, cursor)
    && (key in s.policies ==> s.policies[key].kind == Intercept)
  }

  lemma {:induction false} ReachesRegister(s: State, srcPort: Port, cursor: Port)
    requires InRange(cursor) && srcPort != TPROXY && Ready(s, cursor, KeyOf(Syn(srcPort)))
    ensures Sane(s)
    ensures var s1 := Next(Next(Next(s, Packet(Syn(srcPort), ADDR)), Work(YES)), Work(YES));
      && s1.pc == Register(Job(|s.inputs|, Syn(srcPort), ADDR))
      && s1.tracker == s.tracker && s1.policies == s.policies && s1.cfg == s.cfg && s1.now == s.now
  {
    hide Syn;
    SynFacts(srcPort);
  }

  lemma {:induction false} RegistersAtCursor(s: State, job: Job, cursor: Port)
    requires InRange(cursor) && FullTcp4(job.pkt) && s.pc == Register(job) && s.cfg == CFG && s.now == 0 && job.addr == ADDR
    requires s.tracker == T.Idle(TPROXY, 0, cursor)
    ensures Sane(s)
    ensures var s1 := Next(Next(s, Work(YES)), Work(YES));
      && s1.pc == Idle && s1.cfg == CFG && s1.now == 0
      && s1.tracker == T.Mapped(TPROXY, 0, TrackerModel.Step(cursor), cursor, Endpoints(job.pkt))
      && s1.policies == s.policies[KeyOf(job.pkt) := Policy(Intercept, cursor, 0)]
  {
    hide Hijacked, SetPort;
    T.SetOnIdle(TPROXY, 0, cursor, Endpoints(job.pkt));
    SetGivesCursor(cursor, Endpoints(job.pkt), 0);
  }

  lemma {:induction false} SetGivesCursor(cursor: Port, flow: OrigFlow, now: nat)
    requires InRange(cursor)
    ensures SetPort(T.Idle(TPROXY, 0, cursor), flow, 0, 0, now).1 == Some(cursor)
  {
    assert Usable(T.Idle(TPROXY, 0, cursor), cursor);
    assert Skips(T.Idle(TPROXY, 0, cursor), cursor, PORTS) == 0;
  }

  lemma {:induction false} Connects(s: State, steps: History<PacketLoop.Step>, srcPort: Port, cursor: Port)
    requires Sane(s) && InRange(cursor) && srcPort != TPROXY
    requires Ready(Run(s, steps), cursor, KeyOf(Syn(srcPort)))
    ensures var r := Run(s, Connect(steps, srcPort));
      && r.pc == Idle && r.cfg == CFG && r.now == 0
      && FullTcp4(Syn(srcPort))
      && r.tracker == T.Mapped(TPROXY, 0, TrackerModel.Step(cursor), cursor, Endpoints(Syn(srcPort)))
      && r.policies == Run(s, steps).policies[KeyOf(Syn(srcPort)) := Policy(Intercept, cursor, 0)]
  {
    hide Next, Syn;
    SynFacts(srcPort);
    var before := Run(s, steps);
    ReachesRegister(before, srcPort, cursor);
    var s1 := Next(Next(Next(before, Packet(Syn(srcPort), ADDR)), Work(YES)), Work(YES));
    RegistersAtCursor(s1, Job(|before.inputs|, Syn(srcPort), ADDR), cursor);
    RunConnect(s, steps, srcPort);
  }

  lemma {:induction false} RunConnect(s: State, steps: History<PacketLoop.Step>, srcPort: Port)
    requires Sane(s)
    ensures var s1 := Next(Next(Next(Run(s, steps), Packet(Syn(srcPort), ADDR)), Work(YES)), Work(YES));
      Run(s, Connect(steps, srcPort)) == Next(Next(s1, Work(YES)), Work(YES))
  {
    hide Next, Syn;
    var h1 := Then(steps, Packet(Syn(srcPort), ADDR));
    var h2 := Then(h1, Work(YES));
    var h3 := Then(h2, Work(YES));
    var h4 := Then(h3, Work(YES));
    assert Run(s, h1) == Next(Run(s, steps), Packet(Syn(srcPort), ADDR));
    assert Run(s, h2) == Next(Run(s, h1), Work(YES));
    assert Run(s, h3) == Next(Run(s, h2), Work(YES));
    assert Run(s, h4) == Next(Run(s, h3), Work(YES));
    assert Connect(steps, srcPort) == Then(h4, Work(YES));
  }

  /** `n` connections from `srcPort`, each over before the next. */
  function Churn(steps: History<PacketLoop.Step>, srcPort: Port, cursor: Port, n: nat): History<PacketLoop.Step>
    requires InRange(cursor)
    decreases n, cursor
  {
    if n == 0 then steps
    else Then(Connect(Churn(steps, srcPort, cursor, n - 1), srcPort), Close(Local(Advance(cursor, n - 1))))
  }

  lemma {:induction false} Disconnects(s: State, steps: History<PacketLoop.Step>, srcPort: Port, cursor: Port)
    requires Sane(s) && InRange(cursor) && srcPort != TPROXY
    requires Ready(Run(s, steps), cursor, KeyOf(Syn(srcPort)))
    ensures var r := Run(s, Then(Connect(steps, srcPort), Close(Local(cursor))));
      && Ready(r, TrackerModel.Step(cursor), KeyOf(Syn(srcPort)))
      && r.policies == Run(s, steps).policies[KeyOf(Syn(srcPort)) := Policy(Intercept, cursor, 0)]
  {
    hide Syn, Proceed, Receive, Connect;
    SynFacts(srcPort);
    Connects(s, steps, srcPort, cursor);
    T.ReleaseToIdle(TPROXY, 0, TrackerModel.Step(cursor), cursor, Endpoints(Syn(srcPort)));
  }

  lemma {:induction false} Churns(s: State, steps: History<PacketLoop.Step>, srcPort: Port, cursor: Port, n: nat, other: FlowKey)
    requires Sane(s) && InRange(cursor) && srcPort != TPROXY
    requires Ready(Run(s, steps), cursor, KeyOf(Syn(srcPort)))
    requires other in Run(s, steps).policies && other != KeyOf(Syn(srcPort))
    ensures var r := Run(s, Churn(steps, srcPort, cursor, n));
      && Ready(r, Advance(cursor, n), KeyOf(Syn(srcPort)))
      && other in r.policies && r.policies[other] == Run(s, steps).policies[other]
    decreases n
  {
    hide Syn, Next, Ready;
    if n > 0 {
      Churns(s, steps, srcPort, cursor, n - 1, other);
      Disconnects(s, Churn(steps, srcPort, cursor, n - 1), srcPort, Advance(cursor, n - 1));
    }
  }

  /** A run from the start, at whose end the loop is about to send a packet of one flow over a mapped
      port that belongs to another: one connection is opened and closed, its policy stays behind, the
      other flow reconnects until the cursor is round, and then the first flow sends once more. */
  lemma {:induction false} RecordedPortCanBeAStrangers() returns (steps: History<PacketLoop.Step>)
    ensures var s := Run(NewState(CFG, 0), steps);
      && s.pc.Check? && HasMapped(s.tracker, s.pc.port) && FullTcp4(s.pc.job.pkt)
      && s.tracker.entries[Local(s.pc.port)].flow != Endpoints(s.pc.job.pkt)
  {
    hide Syn, Next, Ready;
    var s0 := NewState(CFG, 0);
    var f, g, n := 50001, 50002, PORTS - 1;
    SynFacts(f);
    SynFacts(g);
    var kf, kg := KeyOf(Syn(f)), KeyOf(Syn(g));
    StartsReady(kf);
    Disconnects(s0, Start, f, PORT_MIN);
    var one := Then(Connect(Start, f), Close(Local(PORT_MIN)));
    ReadyForOther(Run(s0, one), TrackerModel.Step(PORT_MIN), kf, kg);
    Churns(s0, one, g, TrackerModel.Step(PORT_MIN), n, kf);
    AdvanceAdd(PORT_MIN, 1, n);
    AdvanceLap(PORT_MIN, 1 + n);
    var round := Churn(one, g, TrackerModel.Step(PORT_MIN), n);
    Connects(s0, round, g, PORT_MIN);
    steps := Then(Then(Connect(round, g), Packet(Syn(f), ADDR)), Work(YES));
    LooksUp(Run(s0, Connect(round, g)), f, PORT_MIN);
  }

  lemma {:induction false} StartsReady(key: FlowKey)
    ensures Ready(NewState(CFG, 0), PORT_MIN, key)
  {
  }

  lemma {:induction false} ReadyForOther(s: State, cursor: Port, key: FlowKey, other: FlowKey)
    requires Ready(s, cursor, key) && other !in s.policies
    ensures Ready(s, cursor, other)
  {
  }

  lemma {:induction false} LooksUp(s: State, srcPort: Port, port: Port)
    requires Sane(s) && s.pc == Idle && s.cfg == CFG && srcPort != TPROXY
    requires FullTcp(Syn(srcPort)) && KeyOf(Syn(srcPort)) in s.policies
    requires s.policies[KeyOf(Syn(srcPort))].kind == Intercept && s.policies[KeyOf(Syn(srcPort))].port == port
    ensures var r := Next(Next(s, Packet(Syn(srcPort), ADDR)), Work(YES));
      r.pc == Check(Job(|s.inputs|, Syn(srcPort), ADDR), port) && r.tracker == s.tracker
  {
    hide Syn;
    SynFacts(srcPort);
  }

  // ---------------------------------------------------------------- a sweep that shows

  /** The same header in mid-stream: only ACK is set. */
  function Ack(srcPort: Port): Bytes {
    Syn(srcPort)[33 := 0x10]
  }

  lemma {:induction false} AckFacts(srcPort: Port)
    requires srcPort != TPROXY
    ensures var p := Ack(srcPort);
      && FullTcp4(p) && RouteOf(p, CFG) == Policed
      && !IsConnectionStart(FlagsOf(p)) && !IsClosing(FlagsOf(p))
      && FullTcp4(Syn(srcPort)) && KeyOf(p) == KeyOf(Syn(srcPort))
  {
    var p, q := Ack(srcPort), Syn(srcPort);
    SynFacts(srcPort);
    assert p[0] == 0x45 && p[9] == 6 && p[33] == 0x10;
    assert p[16..20] == q[16..20] && p[12..16] == q[12..16];
    assert p[20] == srcPort / 0x100 && p[21] == srcPort % 0x100;
    SameWords(p, q);
  }

  lemma {:induction false} SameWords(p: Bytes, q: Bytes)
    requires FullTcp4(p) && FullTcp4(q) && Version(p) == Version(q) == 4
    requires p[12..16] == q[12..16] && p[16..20] == q[16..20] && SrcPort(p) == SrcPort(q) && DstPort(p) == DstPort(q)
    ensures KeyOf(p) == KeyOf(q)
  {
    KeysNeverCollide(p, q);
    assert p[12..20] == p[12..16] + p[16..20] && q[12..20] == q[12..16] + q[16..20];
  }

  /** After a packet in mid-stream and a long pause. */
  function LongIdle(srcPort: Port): History<Event> {
    Then(Then(Start, Handle(Ack(srcPort), ADDR, YES)), Other(Tick(PASS_TTL)))
  }

  lemma {:induction false} AfterLongIdle(srcPort: Port)
    requires srcPort != TPROXY
    ensures FullTcp4(Syn(srcPort)) && AllProper(LongIdle(srcPort))
    ensures var s := HappenAll(NewState(CFG, 0), LongIdle(srcPort));
      && Well(s) && s.pc == Idle && s.cfg == CFG && s.now == PASS_TTL && s.tracker.entries == map[]
      && s.policies == map[KeyOf(Syn(srcPort)) := Policy(Pass, 0, 0)]
  {
    hide Syn, Ack, Process, KeyOf, Well, RouteOf;
    var s0 := NewState(CFG, 0);
    AckFacts(srcPort);
    MidStreamPasses(s0, Ack(srcPort), ADDR, YES);
    StartIsWell();
    ProcessKeepsInvariants(s0, Ack(srcPort), ADDR, YES);
    var s1 := Process(s0, Ack(srcPort), ADDR, YES);
    NextKeepsWell(s1, Tick(PASS_TTL));
    assert HappenAll(s0, Then(Start, Handle(Ack(srcPort), ADDR, YES))) == s1;
  }

  lemma {:induction false} StartIsWell()
    ensures Well(NewState(CFG, 0))
  {
    NewStateIsWell(CFG, 0);
  }

  lemma {:induction false} SynTells(s: State, syn: Bytes)
    requires FullTcp4(syn) && Opens(syn) && RouteOf(syn, CFG) == Policed && Well(s) && s.pc == Idle
    requires s.cfg == CFG && s.now == PASS_TTL && s.tracker.entries == map[]
    requires s.policies == map[KeyOf(syn) := Policy(Pass, 0, 0)]
    ensures Process(s, syn, ADDR, YES).outs != Process(Next(s, Sweep(KeyOf(syn))), syn, ADDR, YES).outs
  {
    hide Process, KeyOf, GoodTable, GoodPc, RouteOf;
    var key := KeyOf(syn);
    assert Next(s, Sweep(key)) == s.(policies := s.policies - {key});
    assert Tells(s, key, syn, YES);
    SweepShowsIff(s, key, syn, ADDR, YES);
  }

  /** From the start: a flow first seen in mid-stream is let through, stays idle beyond the time to live, and
      then sends a SYN, from a program on the whitelist. If its entry was swept before, the SYN is hijacked,
      and otherwise it passes. */
  lemma {:induction false} SweepShowsToSyn() returns (kept: History<Event>, swept: History<Event>, key: FlowKey)
    ensures AllProper(kept) && AllProper(swept) && WithoutSweeps(swept, {key}) == kept
    ensures HappenAll(NewState(CFG, 0), kept).outs != HappenAll(NewState(CFG, 0), swept).outs
  {
    hide Syn, Ack, Process, Next, KeyOf, Well, LongIdle;
    var f := 50001;
    AfterLongIdle(f);
    key := KeyOf(Syn(f));
    var idle := LongIdle(f);
    var s := HappenAll(NewState(CFG, 0), idle);
    kept := Then(idle, Handle(Syn(f), ADDR, YES));
    swept := Then(Then(idle, Other(Sweep(key))), Handle(Syn(f), ADDR, YES));
    SynFacts(f);
    SynTells(s, Syn(f));
    assert HappenAll(NewState(CFG, 0), Then(idle, Other(Sweep(key)))) == Next(s, Sweep(key));
    NothingSwept(f, key);
  }

  lemma {:induction false} NothingSwept(srcPort: Port, key: FlowKey)
    requires AllProper(LongIdle(srcPort))
    ensures WithoutSweeps(LongIdle(srcPort), {key}) == LongIdle(srcPort)
  {
    hide Ack;
    assert WithoutSweeps(Then(Start, Handle(Ack(srcPort), ADDR, YES)), {key}) == Then(Start, Handle(Ack(srcPort), ADDR, YES));
  }

  // ---------------------------------------------------------------- a sweep that re-routes in mid-stream

  /** A listed program connects, is hijacked, and the proxy's handler lets go of its mapping. */
  function HandlerLeaves(syn: Bytes, m: ConnKey): (r: History<Event>)
    ensures AllProper(r)
  {
    var connected := Then(Start, Handle(syn, ADDR, YES));
    assert AllProper(connected);
    Then(connected, Other(Close(m)))
  }

  lemma {:induction false} AfterHandlerLeft(syn: Bytes, ack: Bytes) returns (m: ConnKey)
    requires FullTcp4(syn) && FullTcp4(ack) && Opens(syn) && RouteOf(syn, CFG) == Policed
    ensures var s, key := HappenAll(NewState(CFG, 0), HandlerLeaves(syn, m)), KeyOf(syn);
      && Well(s) && s.pc == Idle && s.cfg == CFG && key in s.policies
      && s.policies[key].kind == Intercept && !Keeps(s.policies[key], s.tracker, s.now)
      && !Exhausted(s, ack)
  {
    hide Process, KeyOf, GoodTable, GoodPc, RouteOf, Endpoints, T.Bijective, T.Capacity, Hijacked, Opens;
    var s0 := NewState(CFG, 0);
    StartIsWell();
    StartHasRoom(syn);
    FirstSynDecides(s0, syn, ADDR, YES);
    ProcessKeepsInvariants(s0, syn, ADDR, YES);
    var s1 := Process(s0, syn, ADDR, YES);
    m := s1.tracker.orig[Endpoints(syn)];
    assert HappenAll(s0, Then(Start, Handle(syn, ADDR, YES))) == s1;
    NextKeepsWell(s1, Close(m));
    LettingGo(s1, Endpoints(syn), ack, KeyOf(syn));
  }

  lemma {:induction false} StartHasRoom(syn: Bytes)
    requires FullTcp4(syn)
    ensures !Exhausted(NewState(CFG, 0), syn)
  {
    assert T.Capacity(TPROXY) > 0;
  }

  lemma {:induction false} LettingGo(s: State, flow: OrigFlow, ack: Bytes, key: FlowKey)
    requires Well(s) && flow in s.tracker.orig && FullTcp4(ack) && key in s.policies
    requires s.policies[key].kind == Intercept && s.policies[key].port == s.tracker.orig[flow].port
    ensures var r := Next(s, Close(s.tracker.orig[flow]));
      !Keeps(r.policies[key], r.tracker, r.now) && !Exhausted(r, ack)
  {
    hide Endpoints, GoodTable, GoodPc, T.Capacity;
    var m := s.tracker.orig[flow];
    var r := Next(s, Close(m));
    assert m in s.tracker.entries && m == Local(m.port);
    T.TableIsBounded(s.tracker);
    assert r.tracker.entries.Keys == s.tracker.entries.Keys - {m};
    assert |r.tracker.entries| == |r.tracker.entries.Keys| && |s.tracker.entries| == |s.tracker.entries.Keys|;
  }

  /** From the start: the flow's entry intercepts, but its port is not mapped any more. Its next packet, in
      mid-stream, is hijacked anew while the entry is there; once the entry is swept the packet goes out
      directly to the server, as it is. */
  lemma {:induction false} SweepReroutesMidStream()
    returns (kept: History<Event>, swept: History<Event>, key: FlowKey, ack: Bytes)
    ensures AllProper(kept) && AllProper(swept) && WithoutSweeps(swept, {key}) == kept
    ensures FullTcp4(ack) && KeyOf(ack) == key && !IsConnectionStart(FlagsOf(ack)) && !IsClosing(FlagsOf(ack))
    ensures var a, b := HappenAll(NewState(CFG, 0), kept), HappenAll(NewState(CFG, 0), swept);
      a.outs != b.outs && |b.outs| > 0 && |b.inputs| > 0 && b.outs[|b.outs| - 1] == Output(|b.inputs| - 1, ack, ADDR)
  {
    hide Syn, Ack, Process, Next, KeyOf, GoodTable, GoodPc, RouteOf, Exhausted, Hijacked, HandlerLeaves, HappenAll;
    var f := 50001;
    SynFacts(f);
    AckFacts(f);
    ack := Ack(f);
    var m := AfterHandlerLeft(Syn(f), ack);
    key := KeyOf(Syn(f));
    var before := HandlerLeaves(Syn(f), m);
    var s := HappenAll(NewState(CFG, 0), before);
    kept := Then(before, Handle(ack, ADDR, YES));
    swept := Then(Then(before, Other(Sweep(key))), Handle(ack, ADDR, YES));
    AckTells(s, key, ack);
    HappensAfter(before, Handle(ack, ADDR, YES));
    HappensAfter(before, Other(Sweep(key)));
    HappensAfter(Then(before, Other(Sweep(key))), Handle(ack, ADDR, YES));
    NothingSweptThere(Syn(f), m, key);
  }

  lemma {:induction false} HappensAfter(events: History<Event>, e: Event)
    requires AllProper(events) && Proper(e)
    ensures AllProper(Then(events, e))
    ensures HappenAll(NewState(CFG, 0), Then(events, e)) == Happen(HappenAll(NewState(CFG, 0), events), e)
  {
  }

  lemma {:induction false} NothingSweptThere(syn: Bytes, m: ConnKey, key: FlowKey)
    ensures WithoutSweeps(HandlerLeaves(syn, m), {key}) == HandlerLeaves(syn, m)
  {
    assert WithoutSweeps(Then(Start, Handle(syn, ADDR, YES)), {key}) == Then(Start, Handle(syn, ADDR, YES));
  }

  lemma {:induction false} AckTells(s: State, key: FlowKey, ack: Bytes)
    requires Well(s) && s.pc == Idle && s.cfg == CFG && key in s.policies && s.policies[key].kind == Intercept
    requires !Keeps(s.policies[key], s.tracker, s.now)
    requires FullTcp4(ack) && RouteOf(ack, CFG) == Policed && KeyOf(ack) == key && !Exhausted(s, ack)
    requires !IsConnectionStart(FlagsOf(ack)) && !IsClosing(FlagsOf(ack))
    ensures var a, b := Process(s, ack, ADDR, YES), Process(Next(s, Sweep(key)), ack, ADDR, YES);
      && a.outs != b.outs && |b.outs| > 0 && |b.inputs| > 0 && b.outs[|b.outs| - 1] == Output(|b.inputs| - 1, ack, ADDR)
  {
    hide Process, KeyOf, GoodTable, GoodPc, RouteOf, Exhausted;
    var t := Next(s, Sweep(key));
    assert t == s.(policies := s.policies - {key});
    SweepShowsIff(s, key, ack, ADDR, YES);
    MidStreamPasses(t, ack, ADDR, YES);
    TakesInput(t, ack);
  }

  lemma {:induction false} TakesInput(s: State, pkt: Bytes)
    requires Sane(s) && s.pc == Idle
    ensures Process(s, pkt, ADDR, YES).inputs == s.inputs + [Input(pkt, ADDR, s.cfg.upstream)]
  {
    hide Finish, RouteOf;
  }

  // ---------------------------------------------------------------- a handler that takes another's mapping

  const M := Local(PORT_MIN)

  /** A packet is received, and the loop does two pieces of work on it. */
  function Arrives(acts: History<H.Act>, pkt: Bytes): History<H.Act> {
    Then(Then(Then(acts, H.Other(Packet(pkt, ADDR))), H.Other(Work(YES))), H.Other(Work(YES)))
  }

  /** A connection over the port of `M` is accepted, and its handler activates the mapping. */
  function Attended(acts: History<H.Act>, id: nat): History<H.Act> {
    Then(Then(acts, H.Accept(id, M)), H.Serve(id))
  }

  /** The loop has nothing in hand, and intercepts the flow of `syn` through the port of `M`. */
  ghost predicate Connected(s: State, syn: Bytes) {
    && s.pc == Idle && s.cfg == CFG && FullTcp4(syn)
    && KeyOf(syn) in s.policies
    && s.policies[KeyOf(syn)].kind == Intercept && s.policies[KeyOf(syn)].port == PORT_MIN
    && M in s.tracker.entries && s.tracker.entries[M].flow == Endpoints(syn)
  }

  /** The last packet received, `pkt`, was sent to the proxy through the port of `M`. */
  ghost predicate LastHijacked(s: State, pkt: Bytes) {
    && |s.outs| > 0 && |s.inputs| > 0 && s.inputs[|s.inputs| - 1].pkt == pkt
    && s.outs[|s.outs| - 1].idx == |s.inputs| - 1
    && HijackedTo(s.outs[|s.outs| - 1], s.inputs[|s.inputs| - 1], PORT_MIN, TPROXY)
  }

  lemma {:induction false} ArrivesIs(w: H.World, acts: History<H.Act>, pkt: Bytes)
    requires Sane(w.s)
    ensures var q := H.DoAll(w, acts);
      H.DoAll(w, Arrives(acts, pkt)) == H.World(Next(Next(Next(q.s, Packet(pkt, ADDR)), Work(YES)), Work(YES)), q.handlers)
  {
    hide Next;
    var h1 := Then(acts, H.Other(Packet(pkt, ADDR)));
    var h2 := Then(h1, H.Other(Work(YES)));
    assert H.DoAll(w, h1) == H.Do(H.DoAll(w, acts), H.Other(Packet(pkt, ADDR)));
    assert H.DoAll(w, h2) == H.Do(H.DoAll(w, h1), H.Other(Work(YES)));
  }

  lemma {:induction false} FirstSyn(srcPort: Port)
    requires srcPort != TPROXY
    ensures var w := H.DoAll(H.NewWorld(CFG, 0), Then(Then(Arrives(Start, Syn(srcPort)), H.Other(Work(YES))), H.Other(Work(YES))));
      Connected(w.s, Syn(srcPort)) && w.handlers == map[]
  {
    hide Syn, Next, KeyOf, Endpoints, Arrives;
    var s0, w0, acts := NewState(CFG, 0), H.NewWorld(CFG, 0), Arrives(Start, Syn(srcPort));
    SynFacts(srcPort);
    StartsReady(KeyOf(Syn(srcPort)));
    Connects(s0, Start, srcPort, PORT_MIN);
    RunConnect(s0, Start, srcPort);
    ArrivesIs(w0, Start, Syn(srcPort));
    assert H.DoAll(w0, Then(acts, H.Other(Work(YES)))) == H.Do(H.DoAll(w0, acts), H.Other(Work(YES)));
  }

  lemma {:induction false} HandlerComes(w: H.World, acts: History<H.Act>, id: nat)
    requires Sane(w.s)
    requires var q := H.DoAll(w, acts); id !in q.handlers && M in q.s.tracker.entries
    ensures var q, r := H.DoAll(w, acts), H.DoAll(w, Attended(acts, id));
      && r.handlers == q.handlers[id := H.Serving(M, q.s.tracker.entries[M])]
      && r.s == q.s.(tracker := q.s.tracker.(active := q.s.tracker.active + {M}))
  {
    assert H.DoAll(w, Then(acts, H.Accept(id, M))) == H.Do(H.DoAll(w, acts), H.Accept(id, M));
  }

  lemma {:induction false} SynAgain(s: State, srcPort: Port)
    requires Sane(s) && srcPort != TPROXY && Connected(s, Syn(srcPort))
    ensures var r := Next(Next(Next(s, Packet(Syn(srcPort), ADDR)), Work(YES)), Work(YES));
      Connected(r, Syn(srcPort)) && LastHijacked(r, Syn(srcPort))
  {
    hide Syn, KeyOf, Endpoints;
    SynFacts(srcPort);
    var syn := Syn(srcPort);
    var job := Job(|s.inputs|, syn, ADDR);
    LooksUp(s, srcPort, PORT_MIN);
    var s1 := Next(Next(s, Packet(syn, ADDR)), Work(YES));
    assert s1 == s.(inputs := s.inputs + [Input(syn, ADDR, None)], pc := Check(job, PORT_MIN));
    UsesHotPath(s1, job);
  }

  lemma {:induction false} UsesHotPath(s: State, job: Job)
    requires Sane(s) && FullTcp4(job.pkt) && s.pc == Check(job, PORT_MIN) && s.cfg == CFG && M in s.tracker.entries
    requires job.idx + 1 == |s.inputs| && s.inputs[job.idx] == Input(job.pkt, job.addr, None)
    ensures var r := Next(s, Work(YES));
      r == s.(pc := Idle, outs := r.outs) && LastHijacked(r, job.pkt)
  {
    hide Hijacked;
  }

  lemma {:induction false} HandlerGoes(w: H.World, acts: History<H.Act>)
    requires Sane(w.s) && H.Serves(H.DoAll(w, acts), 0, M)
    ensures var q, r := H.DoAll(w, acts), H.DoAll(w, Then(acts, H.Leave(0)));
      && r.handlers == q.handlers - {0} && M !in r.s.tracker.entries
      && r.s == q.s.(tracker := r.s.tracker)
  {
  }

  /** From the start: a client connects and the proxy serves it; while that handler still drains, the client
      connects anew from the same port, and its SYN is hijacked to the port it had. At the end a handler
      serves the new connection, but the first handler has left, and with it the mapping. */
  lemma {:induction false} OlderHandlerTakesMapping() returns (acts: History<H.Act>)
    ensures var w, syn := H.DoAll(H.NewWorld(CFG, 0), acts), Syn(50001);
      && FullTcp4(syn) && H.Serves(w, 1, M) && w.handlers[1].target.flow == Endpoints(syn)
      && LastHijacked(w.s, syn)
      && M !in w.s.tracker.entries
  {
    hide Syn, KeyOf, Endpoints, H.Do, H.DoAll, Next, HijackedTo, Arrives, Attended;
    var f, w0 := 50001, H.NewWorld(CFG, 0);
    var syn := Syn(f);
    FirstSyn(f);
    var one := Then(Then(Arrives(Start, syn), H.Other(Work(YES))), H.Other(Work(YES)));
    HandlerComes(w0, one, 0);
    var two := Arrives(Attended(one, 0), syn);
    ArrivesIs(w0, Attended(one, 0), syn);
    SynAgain(H.DoAll(w0, Attended(one, 0)).s, f);
    HandlerComes(w0, two, 1);
    HandlerGoes(w0, Attended(two, 1));
    acts := Then(Attended(two, 1), H.Leave(0));
  }
}
