/** Proxied flows: a live one stays proxied, through one port; and when a port recorded in the policy
    table may be used without asking the tracker whose it is. */
module LiveFlows {
  import opened Net
  import opened Histories
  import opened Packets
  import opened TrackerModel
  import opened PolicyModel
  import opened PacketLoop
  import opened LoopInvariants
  import opened RouteSafety
  import T = TrackerProofs

  // ---------------------------------------------------------------- a live proxied flow stays proxied

  /** Flow `key` is intercepted through port `m`, `m` maps back to it and a connection handler holds
      the mapping; the loop is not in the middle of ending or re-registering the flow. */
  ghost predicate Proxied(s: State, key: FlowKey, m: Port) {
    && key.ver == 4 && m != 0
    && key in s.policies && s.policies[key].kind == Intercept && s.policies[key].port == m
    && Local(m) in s.tracker.entries && s.tracker.entries[Local(m)].flow == FlowOf(key)
    && Local(m) in s.tracker.active
    && (s.pc != Idle && FullTcp(JobOf(s.pc).pkt) && KeyOf(JobOf(s.pc).pkt) == key ==>
          match s.pc
          case Lookup(job) => !IsClosing(FlagsOf(job.pkt))
          case Check(_, port) => port == m
          case Reverse(_) => true
          case _ => false)
  }

  /** The handler does not let go of `m`, and no FIN or RST comes on `key`. */
  predicate NeverEnded(steps: History<Step>, key: FlowKey, m: Port)
    decreases steps
  {
    steps.Then? ==>
      && !(steps.last.Close? && steps.last.key == Local(m))
      && !(steps.last.Packet? && FullTcp(steps.last.pkt) && KeyOf(steps.last.pkt) == key && IsClosing(FlagsOf(steps.last.pkt)))
      && NeverEnded(steps.past, key, m)
  }

  ghost predicate HijackedTo(o: Output, i: Input, m: Port, tproxy: Port) {
    && FullTcp4(i.pkt)
    && (exists sums :: o.pkt == Hijacked(i.pkt, m, tproxy, sums))
    && o.addr == HijackedAddr(i.addr)
  }

  /** How a packet of a proxied flow may go out: untouched if it was bound for the upstream proxy
      itself when it came in, and otherwise rewritten to port `m`. */
  ghost predicate ProxiedOutput(o: Output, i: Input, m: Port, tproxy: Port)
    requires FullTcp4(i.pkt)
  {
    if i.upstream == Some(i.pkt[16..20]) then Verbatim(o, i) else HijackedTo(o, i, m, tproxy)
  }

  ghost predicate NewOutputsProxied(s: State, r: State, key: FlowKey, m: Port) {
    && s.outs <= r.outs && s.inputs <= r.inputs
    && forall n :: |s.outs| <= n < |r.outs| ==>
         var o := r.outs[n];
         && o.idx < |r.inputs|
         && (FullTcp4(r.inputs[o.idx].pkt) && OnFlow(r.inputs[o.idx].pkt, key, r.cfg.tproxy) ==>
               ProxiedOutput(o, r.inputs[o.idx], m, r.cfg.tproxy))
  }

  lemma {:induction false} ReceiveKeepsProxied(s: State, pkt: Bytes, addr: Address, key: FlowKey, m: Port)
    requires Well(s) && Proxied(s, key, m)
    requires !(FullTcp(pkt) && KeyOf(pkt) == key && IsClosing(FlagsOf(pkt)))
    ensures Proxied(Receive(s, pkt, addr), key, m)
    ensures NewOutputsProxied(s, Receive(s, pkt, addr), key, m)
  {
    assert GoodKey(key, s.cfg.tproxy);
    if FullTcp4(pkt) {
      KeyMeansEndpoints(pkt);
    }
  }

  lemma {:induction false} LookupStepsKeepProxied(s: State, answers: Answers, key: FlowKey, m: Port)
    requires Well(s) && Proxied(s, key, m) && (s.pc.Lookup? || s.pc.Forget?)
    ensures Proxied(Proceed(s, answers), key, m)
    ensures NewOutputsProxied(s, Proceed(s, answers), key, m)
  {
    hide KeyOf, GoodTable, T.Bijective, RouteOf, Endpoints, ProxiedOutput, FlowOf;
    KeysCarryVersion(s.pc.job.pkt);
  }

  lemma {:induction false} DecisionStepsKeepProxied(s: State, answers: Answers, key: FlowKey, m: Port)
    requires Well(s) && Proxied(s, key, m)
    requires s.pc.Idle? || s.pc.Quic? || s.pc.Decide? || s.pc.Record?
    ensures Proxied(Proceed(s, answers), key, m)
    ensures NewOutputsProxied(s, Proceed(s, answers), key, m)
  {
    hide KeyOf, GoodTable, T.Bijective, RouteOf, Endpoints, ProxiedOutput, FlowOf;
  }

  lemma {:induction false} CheckKeepsProxied(s: State, answers: Answers, key: FlowKey, m: Port)
    requires Well(s) && Proxied(s, key, m) && s.pc.Check?
    ensures Proxied(CheckStep(s, s.pc.job, s.pc.port, answers), key, m)
    ensures NewOutputsProxied(s, CheckStep(s, s.pc.job, s.pc.port, answers), key, m)
  {
    hide Hijacked;
  }

  lemma {:induction false} ReverseKeepsProxied(s: State, answers: Answers, key: FlowKey, m: Port)
    requires Well(s) && Proxied(s, key, m) && s.pc.Reverse?
    ensures Proxied(ReverseStep(s, s.pc.job, answers), key, m)
    ensures NewOutputsProxied(s, ReverseStep(s, s.pc.job, answers), key, m)
  {
    hide Reversed;
    assert !OnFlow(s.pc.job.pkt, key, s.cfg.tproxy);
  }

  /** Asking for a port for another flow leaves a live entry alone. */
  lemma {:induction false} SetLeavesOthers(t: Tracker, flow: OrigFlow, ifIdx: nat, subIfIdx: nat, now: nat, key: ConnKey)
    requires InRange(t.nextPort) && key in t.entries
    ensures var t1 := SetPort(t, flow, ifIdx, subIfIdx, now).0;
      key in t1.entries && t1.entries[key] == t.entries[key] && t1.active == t.active
  {
  }

  lemma {:induction false} RegisterKeepsProxied(s: State, answers: Answers, key: FlowKey, m: Port)
    requires Well(s) && Proxied(s, key, m) && s.pc.Register?
    ensures Proxied(RegisterStep(s, s.pc.job, answers), key, m)
    ensures NewOutputsProxied(s, RegisterStep(s, s.pc.job, answers), key, m)
  {
    hide Hijacked, SetPort;
    var job := s.pc.job;
    SetLeavesOthers(s.tracker, Endpoints(job.pkt), job.addr.ifIdx, job.addr.subIfIdx, s.now, Local(m));
  }

  lemma {:induction false} ReleaseKeepsProxied(s: State, key: FlowKey, m: Port)
    requires Well(s) && Proxied(s, key, m) && s.pc.Release?
    ensures Proxied(ReleaseStep(s, s.pc.job, s.pc.port), key, m)
  {
    KeyMeansEndpoints(s.pc.job.pkt);
    V4KeysAreFlows(KeyOf(s.pc.job.pkt), key);
    assert s.pc.port != m;
  }

  lemma {:induction false} ProceedKeepsProxied(s: State, answers: Answers, key: FlowKey, m: Port)
    requires Well(s) && Proxied(s, key, m)
    ensures Proxied(Proceed(s, answers), key, m)
    ensures NewOutputsProxied(s, Proceed(s, answers), key, m)
  {
    hide Proxied;
    match s.pc
    case Reverse(_) => ReverseKeepsProxied(s, answers, key, m);
    case Check(_, _) => CheckKeepsProxied(s, answers, key, m);
    case Register(_) => RegisterKeepsProxied(s, answers, key, m);
    case Release(_, _) => ReleaseKeepsProxied(s, key, m);
    case Lookup(_) => LookupStepsKeepProxied(s, answers, key, m);
    case Forget(_) => LookupStepsKeepProxied(s, answers, key, m);
    case _ => DecisionStepsKeepProxied(s, answers, key, m);
  }

  lemma {:induction false} OthersKeepProxied(s: State, step: Step, key: FlowKey, m: Port)
    requires Well(s) && Proxied(s, key, m)
    requires !step.Packet? && !step.Work? && !(step.Close? && step.key == Local(m))
    ensures Proxied(Next(s, step), key, m)
    ensures Next(s, step).outs == s.outs && Next(s, step).inputs == s.inputs
  {
  }

  /** From the moment its handler holds the mapping, until the handler lets go of it or a FIN or RST
      comes, a proxied flow stays proxied through the same port: no sweep, collection, configuration
      edit or other flow removes its policy or its mapping, and each packet of it that goes out is
      rewritten to that port, unless it was bound for the upstream proxy itself. */
  lemma {:induction false} LiveFlowStaysProxied(s: State, steps: History<Step>, key: FlowKey, m: Port)
    requires Well(s) && Proxied(s, key, m) && NeverEnded(steps, key, m)
    ensures Proxied(Run(s, steps), key, m)
    ensures NewOutputsProxied(s, Run(s, steps), key, m)
    decreases steps
  {
    hide Proceed, Receive, Proxied, ProxiedOutput;
    if steps.Then? {
      LiveFlowStaysProxied(s, steps.past, key, m);
      RunsStayWell(s, steps.past);
      var s1 := Run(s, steps.past);
      match steps.last
      case Packet(pkt, addr) => ReceiveKeepsProxied(s1, pkt, addr, key, m);
      case Work(answers) => ProceedKeepsProxied(s1, answers, key, m);
      case _ => OthersKeepProxied(s1, steps.last, key, m);
    }
  }

  // ---------------------------------------------------------------- and nothing of it is held back

  /** Checksums could be computed at every step of the loop. */
  predicate SumsGiven(steps: History<Step>)
    decreases steps
  {
    steps.Then? ==> (steps.last.Work? ==> steps.last.answers.sums.Some?) && SumsGiven(steps.past)
  }

  lemma {:induction false} ProxiedKeepsInHand(s: State, answers: Answers, key: FlowKey, m: Port)
    requires Well(s) && Proxied(s, key, m) && s.pc != Idle && Unsent(s.pc) && answers.sums.Some?
    requires OnFlow(JobOf(s.pc).pkt, key, s.cfg.tproxy)
    ensures InHandOrSent(s, Proceed(s, answers), JobOf(s.pc).idx)
  {
    hide Hijacked, Reversed, SetPort, KeyOf, GoodTable;
    var r := Proceed(s, answers);
    assert s.pc.Lookup? || s.pc.Check?;
    KeysCarryVersion(JobOf(s.pc).pkt);
    if |r.outs| > |s.outs| {
      assert r.outs[|s.outs|].idx == JobOf(s.pc).idx;
    }
  }

  lemma {:induction false} StepHoldsNothingBack(s: State, s1: State, step: Step, key: FlowKey, m: Port)
    requires Well(s1) && Proxied(s1, key, m) && (step.Work? ==> step.answers.sums.Some?)
    requires s.outs <= s1.outs && s.inputs <= s1.inputs && NothingHeldBack(s, s1, key)
    ensures NothingHeldBack(s, Next(s1, step), key)
  {
    hide Proceed, Receive, Proxied, GoodTable, GoodPc, Unsent, OnFlow, InHandOrSent;
    var r := Next(s1, step);
    forall n | |s.inputs| <= n < |r.inputs| && OnFlow(r.inputs[n].pkt, key, r.cfg.tproxy)
      ensures InHandOrSent(s, r, n)
    {
      HandsOn(s, s1, step, key, m, n);
    }
  }

  lemma {:induction false} HandsOn(s: State, s1: State, step: Step, key: FlowKey, m: Port, n: nat)
    requires Well(s1) && Proxied(s1, key, m) && (step.Work? ==> step.answers.sums.Some?)
    requires s.outs <= s1.outs && s.inputs <= s1.inputs && NothingHeldBack(s, s1, key)
    requires |s.inputs| <= n < |Next(s1, step).inputs| && OnFlow(Next(s1, step).inputs[n].pkt, key, s1.cfg.tproxy)
    ensures InHandOrSent(s, Next(s1, step), n)
  {
    hide Proceed, Proxied, RouteOf, KeyOf;
    var r := Next(s1, step);
    if n == |s1.inputs| {
      ReceiveTakesInHand(s1, step.pkt, step.addr, key);
    } else if s1.pc != Idle && Unsent(s1.pc) && JobOf(s1.pc).idx == n && step.Work? {
      ProxiedKeepsInHand(s1, step.answers, key, m);
    }
    SentStaysSent(s, s1, r, n);
  }

  /** And every packet of such a flow is sent, or still in the loop's hand, as long as checksums can be
      computed. */
  lemma {:induction false} LiveFlowLosesNothing(s: State, steps: History<Step>, key: FlowKey, m: Port)
    requires Well(s) && Proxied(s, key, m) && NeverEnded(steps, key, m) && SumsGiven(steps)
    ensures NothingHeldBack(s, Run(s, steps), key)
    decreases steps
  {
    hide Next, Proxied, InHandOrSent, OnFlow;
    if steps.Then? {
      LiveFlowLosesNothing(s, steps.past, key, m);
      LiveFlowStaysProxied(s, steps.past, key, m);
      RunsStayWell(s, steps.past);
      StepHoldsNothingBack(s, Run(s, steps.past), steps.last, key, m);
    }
  }

  // ---------------------------------------------------------------- the tracker's part of a run

  /** What one step does to the tracker. */
  function TrackerOp(s: State, step: Step): Option<T.Op>
    requires Sane(s)
  {
    match step
    case Work(answers) =>
      (match s.pc
       case Register(job) => Some(T.Set(Endpoints(job.pkt), job.addr.ifIdx, job.addr.subIfIdx, s.now))
       case Release(_, port) => Some(T.Delete(Local(port)))
       case _ => None)
    case Open(key) => Some(T.Activate(key))
    case Close(key) => Some(T.Delete(key))
    case Collect => Some(T.Collect(s.now))
    case _ => None
  }

  function TrackerHistory(s: State, steps: History<Step>): History<T.Op>
    requires Sane(s)
    decreases steps
  {
    match steps
    case Start => Start
    case Then(past, step) =>
      var op := TrackerOp(Run(s, past), step);
      if op.None? then TrackerHistory(s, past) else Then(TrackerHistory(s, past), op.value)
  }

  lemma {:induction false} StepDoesTrackerOp(s: State, step: Step)
    requires Sane(s)
    ensures var op := TrackerOp(s, step);
      Next(s, step).tracker == if op.None? then s.tracker else T.Apply(s.tracker, op.value)
  {
    hide Hijacked, Reversed, SetPort;
  }

  /** Every run of the loop is, seen from the tracker, a run of the tracker. */
  lemma {:induction false} LoopRunsTracker(s: State, steps: History<Step>)
    requires Sane(s)
    ensures Run(s, steps).tracker == T.Run(s.tracker, TrackerHistory(s, steps))
    decreases steps
  {
    hide Next;
    if steps.Then? {
      LoopRunsTracker(s, steps.past);
      StepDoesTrackerOp(Run(s, steps.past), steps.last);
    }
  }

  // ---------------------------------------------------------------- the hot path refines the slow one

  /** What registering the flow anew would send and record, run to the end without interruption. */
  function SlowPath(s: State, job: Job, answers: Answers): State
    requires Sane(s) && FullTcp4(job.pkt)
  {
    var s1 := RegisterStep(s, job, answers);
    match s1.pc
    case Record(_, kind, port, send) => RecordStep(s1, job, kind, port, send)
    case _ => s1
  }

  /** With a mapping of the flow at hand, the hot path sends the packet the slow path would send and
      leaves the tracker as the slow path would; the policy stays the same up to its time stamp. */
  lemma {:induction false} HotPathIsSlowPath(s: State, answers: Answers)
    requires Well(s) && s.pc.Check? && answers.sums.Some?
    requires var m, job := s.pc.port, s.pc.job;
      HasMapped(s.tracker, m) && s.tracker.entries[Local(m)].flow == Endpoints(job.pkt)
    ensures var fast, slow := CheckStep(s, s.pc.job, s.pc.port, answers), SlowPath(s, s.pc.job, answers);
      && fast.outs == slow.outs && |fast.outs| == |s.outs| + 1
      && fast.tracker == slow.tracker == s.tracker
      && slow.pc == fast.pc == Idle
      && slow.policies == s.policies[KeyOf(s.pc.job.pkt) := Policy(Intercept, s.pc.port, s.now)]
  {
    hide Hijacked;
    var flow := Endpoints(s.pc.job.pkt);
    assert flow in s.tracker.orig && s.tracker.orig[flow] == Local(s.pc.port);
  }

  /** Exactly when the hot path is right, on every run from the start: a packet about to be sent by it
      goes to the port the slow path would use if and only if that port was last handed to its flow. */
  lemma {:induction false} HotPathIsRightIff(cfg: Config, ttl: int, steps: History<Step>)
    requires var s := Run(NewState(cfg, ttl), steps);
      s.pc.Check? && HasMapped(s.tracker, s.pc.port)
    ensures var s0 := NewState(cfg, ttl);
      var s := Run(s0, steps);
      FullTcp4(s.pc.job.pkt) &&
      (SetPort(s.tracker, Endpoints(s.pc.job.pkt), s.pc.job.addr.ifIdx, s.pc.job.addr.subIfIdx, s.now)
         == (s.tracker, Some(s.pc.port))
       <==> T.LastOwner(T.Journey(s0.tracker, TrackerHistory(s0, steps)), s.pc.port) == Some(Endpoints(s.pc.job.pkt)))
  {
    var s0 := NewState(cfg, ttl);
    var s := Run(s0, steps);
    NewStateIsWell(cfg, ttl);
    RunsStayWell(s0, steps);
    LoopRunsTracker(s0, steps);
    T.PortBelongsToLastOwner(s0.tracker, TrackerHistory(s0, steps), s.pc.port);
    MappedFlowKeepsPort(s.tracker, Endpoints(s.pc.job.pkt), s.pc.job.addr.ifIdx, s.pc.job.addr.subIfIdx, s.now, s.pc.port);
  }

  lemma {:induction false} MappedFlowKeepsPort(t: Tracker, flow: OrigFlow, ifIdx: nat, subIfIdx: nat, now: nat, m: Port)
    requires T.Bijective(t) && HasMapped(t, m)
    ensures SetPort(t, flow, ifIdx, subIfIdx, now) == (t, Some(m)) <==> t.entries[Local(m)].flow == flow
  {
    if t.entries[Local(m)].flow == flow {
      assert t.orig[flow] == Local(m);
    } else if flow in t.orig {
      assert t.entries[t.orig[flow]].flow == flow;
    }
  }
}
