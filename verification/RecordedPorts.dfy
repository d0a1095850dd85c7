/** The mapped ports recorded in the policy table: each was once handed to the flow it is recorded for, and
    when it is still that flow's the hot path does what the slow path would. */
module RecordedPorts {
  import opened Net
  import opened Histories
  import opened Packets
  import opened TrackerModel
  import opened PolicyModel
  import opened PacketLoop
  import opened LoopInvariants
  import opened LiveFlows
  import T = TrackerProofs

  /** The journey of the tracker's cursor in a run of the loop. */
  function JourneyOf(s: State, steps: History<PacketLoop.Step>): seq<T.Visit>
    requires Sane(s)
  {
    T.Journey(s.tracker, TrackerHistory(s, steps))
  }

  /** The port the loop has in hand for a flow, about to be used or recorded, was handed to that flow. */
  ghost predicate PendingWasGiven(pc: Pc, journey: seq<T.Visit>) {
    match pc
    case Check(job, port) => FullTcp4(job.pkt) ==> T.Given(journey, port, Endpoints(job.pkt))
    case Record(job, kind, port, _) =>
      kind == Intercept && FullTcp4(job.pkt) ==> T.Given(journey, port, Endpoints(job.pkt))
    case _ => true
  }

  ghost predicate PortsWereGiven(s: State, journey: seq<T.Visit>) {
    && PendingWasGiven(s.pc, journey)
    && forall key <- s.policies :: key.ver == 4 && s.policies[key].kind == Intercept ==>
         T.Given(journey, s.policies[key].port, FlowOf(key))
  }

  lemma {:induction false} MoreJourneyIsFine(s: State, journey: seq<T.Visit>, longer: seq<T.Visit>)
    requires PortsWereGiven(s, journey) && journey <= longer
    ensures PortsWereGiven(s, longer)
  {
    hide T.Given;
    forall port, flow | T.Given(journey, port, flow) ensures T.Given(longer, port, flow) {
      T.GivenStaysGiven(journey, longer, port, flow);
    }
  }

  lemma {:induction false} LookupKeepsGiven(s: State, journey: seq<T.Visit>)
    requires Well(s) && PortsWereGiven(s, journey) && (s.pc.Lookup? || s.pc.Forget?)
    ensures s.pc.Lookup? ==> PortsWereGiven(LookupStep(s, s.pc.job), journey)
    ensures s.pc.Forget? ==> PortsWereGiven(ForgetStep(s, s.pc.job), journey)
  {
    hide T.Given, Hijacked, Endpoints, FlowOf, KeyOf, GoodTable;
    if FullTcp4(s.pc.job.pkt) {
      KeyMeansEndpoints(s.pc.job.pkt);
      KeysCarryVersion(s.pc.job.pkt);
    }
  }

  lemma {:induction false} RecordKeepsGiven(s: State, journey: seq<T.Visit>)
    requires Well(s) && PortsWereGiven(s, journey) && s.pc.Record?
    ensures PortsWereGiven(RecordStep(s, s.pc.job, s.pc.kind, s.pc.port, s.pc.send), journey)
  {
    hide T.Given, Endpoints, FlowOf, KeyOf, GoodTable;
    var pkt := s.pc.job.pkt;
    KeysCarryVersion(pkt);
    if FullTcp4(pkt) {
      KeyMeansEndpoints(pkt);
    }
  }

  lemma {:induction false} OthersKeepGiven(s: State, step: PacketLoop.Step, journey: seq<T.Visit>)
    requires Well(s) && PortsWereGiven(s, journey)
    requires step.Work? ==> !s.pc.Lookup? && !s.pc.Forget? && !s.pc.Record? && !s.pc.Register?
    ensures PortsWereGiven(Next(s, step), journey)
  {
    hide T.Given, Hijacked, Reversed, Endpoints, FlowOf, KeyOf, GoodTable, SetPort, RouteOf, T.Bijective;
  }

  lemma {:induction false} RegisterKeepsGiven(s: State, answers: Answers, journey: seq<T.Visit>)
    requires Well(s) && PortsWereGiven(s, journey) && s.pc.Register?
    requires var (t, mapped) := SetPort(s.tracker, Endpoints(s.pc.job.pkt), s.pc.job.addr.ifIdx, s.pc.job.addr.subIfIdx, s.now);
      mapped.Some? ==> T.Given(journey, mapped.value, Endpoints(s.pc.job.pkt))
    ensures PortsWereGiven(RegisterStep(s, s.pc.job, answers), journey)
  {
    hide T.Given, Hijacked, Endpoints, FlowOf, KeyOf, GoodTable;
  }

  /** Registering a flow maps it to a port that was handed to it, now or before. */
  lemma {:induction false} RegisteredWasGiven(cfg: Config, ttl: int, steps: History<PacketLoop.Step>, answers: Answers)
    requires Run(NewState(cfg, ttl), steps).pc.Register?
    ensures var s0 := NewState(cfg, ttl);
      var s, job := Run(s0, steps), Run(s0, steps).pc.job;
      var (t, mapped) := SetPort(s.tracker, Endpoints(job.pkt), job.addr.ifIdx, job.addr.subIfIdx, s.now);
      mapped.Some? ==> T.Given(JourneyOf(s0, Then(steps, Work(answers))), mapped.value, Endpoints(job.pkt))
  {
    hide T.Given, Hijacked, T.Journey, TrackerHistory, SetPort;
    var s0 := NewState(cfg, ttl);
    var s := Run(s0, steps);
    var job := s.pc.job;
    NewStateIsWell(cfg, ttl);
    RunsStayWell(s0, steps);
    RegisterGetsPort(s.tracker, Endpoints(job.pkt), job.addr.ifIdx, job.addr.subIfIdx, s.now);
    var (t, mapped) := SetPort(s.tracker, Endpoints(job.pkt), job.addr.ifIdx, job.addr.subIfIdx, s.now);
    if mapped.Some? {
      var more := Then(steps, Work(answers));
      assert Run(s0, more).tracker == t;
      LoopRunsTracker(s0, more);
      T.MappedWasGiven(s0.tracker, TrackerHistory(s0, more), mapped.value);
    }
  }

  lemma {:induction false} JourneyGrows(s: State, steps: History<PacketLoop.Step>, step: PacketLoop.Step)
    requires Sane(s)
    ensures JourneyOf(s, steps) <= JourneyOf(s, Then(steps, step))
  {
  }

  /** On every run from the start: the port of each intercepted IPv4 flow was handed to that flow. */
  lemma {:induction false} RecordedPortsWereGiven(cfg: Config, ttl: int, steps: History<PacketLoop.Step>)
    ensures PortsWereGiven(Run(NewState(cfg, ttl), steps), JourneyOf(NewState(cfg, ttl), steps))
    decreases steps
  {
    hide Next, PortsWereGiven, JourneyOf, Well, SetPort;
    var s0 := NewState(cfg, ttl);
    if steps == Start {
      NothingRecorded(cfg, ttl);
    } else {
      var s, step := Run(s0, steps.past), steps.last;
      var journey := JourneyOf(s0, steps);
      RecordedPortsWereGiven(cfg, ttl, steps.past);
      NewStateIsWell(cfg, ttl);
      RunsStayWell(s0, steps.past);
      JourneyGrows(s0, steps.past, step);
      MoreJourneyIsFine(s, JourneyOf(s0, steps.past), journey);
      StepKeepsGiven(cfg, ttl, steps.past, step, journey);
    }
  }

  lemma {:induction false} NothingRecorded(cfg: Config, ttl: int)
    ensures PortsWereGiven(NewState(cfg, ttl), JourneyOf(NewState(cfg, ttl), Start))
  {
  }

  lemma {:induction false} StepKeepsGiven(cfg: Config, ttl: int, steps: History<PacketLoop.Step>, step: PacketLoop.Step,
                                          journey: seq<T.Visit>)
    requires var s := Run(NewState(cfg, ttl), steps);
      Well(s) && PortsWereGiven(s, journey) && journey == JourneyOf(NewState(cfg, ttl), Then(steps, step))
    ensures PortsWereGiven(Next(Run(NewState(cfg, ttl), steps), step), journey)
  {
    hide PortsWereGiven, JourneyOf, Run, SetPort, Hijacked, Reversed, Endpoints;
    var s := Run(NewState(cfg, ttl), steps);
    if step.Work? && (s.pc.Lookup? || s.pc.Forget?) {
      LookupKeepsGiven(s, journey);
    } else if step.Work? && s.pc.Record? {
      RecordKeepsGiven(s, journey);
    } else if step.Work? && s.pc.Register? {
      RegisteredWasGiven(cfg, ttl, steps, step.answers);
      RegisterKeepsGiven(s, step.answers, journey);
    } else {
      OthersKeepGiven(s, step, journey);
    }
  }

  /** Since visit `i` of its journey the cursor has not completed a lap, or `port` has not been released. */
  predicate StillSafe(s: State, steps: History<PacketLoop.Step>, i: nat, port: Port)
    requires Sane(s)
  {
    || |JourneyOf(s, steps)| - i <= PORTS
    || T.KeptSince(s.tracker, TrackerHistory(s, steps), i, Local(port))
  }

  /** On every run from the start, an intercepted IPv4 flow has a port that was handed to it at some visit
      of the cursor; and from any such visit on, as long as the cursor has not completed a lap or the port
      has not been released, if the port is in use then it is in use for this flow. */
  lemma {:induction false} RecordedPortIsItsFlows(cfg: Config, ttl: int, steps: History<PacketLoop.Step>, key: FlowKey)
    requires var r := Run(NewState(cfg, ttl), steps);
      key in r.policies && key.ver == 4 && r.policies[key].kind == Intercept
    ensures var s := NewState(cfg, ttl);
      var r, journey := Run(s, steps), JourneyOf(s, steps);
      var visit := T.Visit(r.policies[key].port, T.HandedOut(FlowOf(key)));
      && (exists i :: 0 <= i < |journey| && journey[i] == visit)
      && (forall i :: 0 <= i < |journey| && journey[i] == visit && StillSafe(s, steps, i, visit.port)
                      && HasMapped(r.tracker, visit.port) ==>
            r.tracker.entries[Local(visit.port)].flow == FlowOf(key))
  {
    hide Run, TrackerHistory, T.Journey, FlowOf, StillSafe;
    var s := NewState(cfg, ttl);
    var r, journey := Run(s, steps), JourneyOf(s, steps);
    var port := r.policies[key].port;
    RecordedPortsWereGiven(cfg, ttl, steps);
    assert T.Given(journey, port, FlowOf(key));
    forall i | 0 <= i < |journey| && journey[i] == T.Visit(port, T.HandedOut(FlowOf(key)))
               && StillSafe(s, steps, i, port) && HasMapped(r.tracker, port)
      ensures r.tracker.entries[Local(port)].flow == FlowOf(key)
    {
      GivenPortBelongs(cfg, ttl, steps, i, port, FlowOf(key));
    }
  }

  lemma {:induction false} GivenPortBelongs(cfg: Config, ttl: int, steps: History<PacketLoop.Step>, i: nat, port: Port, flow: OrigFlow)
    requires var s := NewState(cfg, ttl);
      && i < |JourneyOf(s, steps)| && JourneyOf(s, steps)[i] == T.Visit(port, T.HandedOut(flow))
      && StillSafe(s, steps, i, port) && HasMapped(Run(s, steps).tracker, port)
    ensures Run(NewState(cfg, ttl), steps).tracker.entries[Local(port)].flow == flow
  {
    hide Run, TrackerHistory, T.Journey, T.KeptSince;
    var s := NewState(cfg, ttl);
    LoopRunsTracker(s, steps);
    NewStateIsWell(cfg, ttl);
    if |JourneyOf(s, steps)| - i <= PORTS {
      T.LapBelongs(s.tracker, TrackerHistory(s, steps), i, port, flow);
    } else {
      T.KeptBelongs(s.tracker, TrackerHistory(s, steps), i, port, flow);
    }
  }

  /** The fast path refines the slow one. On every run from the start, a packet about to go out over the
      recorded port of its flow has a port that was handed to its flow; and while that port has not been
      released since, or the cursor has not completed a lap, the packet sent, the tracker and the policy but
      for its time stamp are those of registering the flow anew. */
  lemma {:induction false} HotPathRefinesSlowPath(cfg: Config, ttl: int, steps: History<PacketLoop.Step>, answers: Answers)
    requires var r := Run(NewState(cfg, ttl), steps);
      r.pc.Check? && HasMapped(r.tracker, r.pc.port) && answers.sums.Some?
    ensures var s := NewState(cfg, ttl);
      var r, journey := Run(s, steps), JourneyOf(s, steps);
      var job, port := r.pc.job, r.pc.port;
      FullTcp4(job.pkt) &&
      var visit := T.Visit(port, T.HandedOut(Endpoints(job.pkt)));
      var fast, slow := CheckStep(r, job, port, answers), SlowPath(r, job, answers);
      && (exists i :: 0 <= i < |journey| && journey[i] == visit)
      && (forall i :: 0 <= i < |journey| && journey[i] == visit && StillSafe(s, steps, i, port) ==>
            && fast.outs == slow.outs && fast.tracker == slow.tracker && fast.pc == slow.pc == Idle
            && slow.policies == fast.policies[KeyOf(job.pkt) := Policy(Intercept, port, r.now)])
  {
    hide Run, TrackerHistory, T.Journey, StillSafe, CheckStep, SlowPath, KeyOf, Endpoints;
    var s := NewState(cfg, ttl);
    var r, journey := Run(s, steps), JourneyOf(s, steps);
    var job, port := r.pc.job, r.pc.port;
    NewStateIsWell(cfg, ttl);
    RunsStayWell(s, steps);
    RecordedPortsWereGiven(cfg, ttl, steps);
    assert T.Given(journey, port, Endpoints(job.pkt));
    forall i | 0 <= i < |journey| && journey[i] == T.Visit(port, T.HandedOut(Endpoints(job.pkt))) && StillSafe(s, steps, i, port)
      ensures r.tracker.entries[Local(port)].flow == Endpoints(job.pkt)
    {
      GivenPortBelongs(cfg, ttl, steps, i, port, Endpoints(job.pkt));
    }
    if r.tracker.entries[Local(port)].flow == Endpoints(job.pkt) {
      HotPathIsSlowPath(r, answers);
      FastKeepsPolicies(r, answers);
    }
  }

  lemma {:induction false} FastKeepsPolicies(s: State, answers: Answers)
    requires Well(s) && s.pc.Check? && HasMapped(s.tracker, s.pc.port)
    ensures CheckStep(s, s.pc.job, s.pc.port, answers).policies == s.policies
  {
    hide Hijacked;
  }
}
