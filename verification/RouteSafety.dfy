/** The routing promise, for flows that are not intercepted: such a connection is never hijacked or blocked in
    mid-stream, and only a flow whose opening was seen and whose program was whitelisted at that moment is ever
    intercepted. An intercepted flow keeps its route while its mapping lives, which is another matter; when its
    entry is swept it can lose it in mid-stream. */
module RouteSafety {
  import opened Net
  import opened Histories
  import opened Packets
  import opened TrackerModel
  import opened PolicyModel
  import opened PacketLoop
  import opened LoopInvariants
  import T = TrackerProofs

  // ---------------------------------------------------------------- no mid-stream hijack or block

  /** A packet that may begin a connection: a SYN without ACK, FIN or RST. */
  predicate Opens(pkt: Bytes) {
    FullTcp(pkt) && IsConnectionStart(FlagsOf(pkt)) && !IsClosing(FlagsOf(pkt))
  }

  /** A packet of flow `key`, from the client's side. */
  predicate OnFlow(pkt: Bytes, key: FlowKey, tproxy: Port) {
    FullTcp(pkt) && KeyOf(pkt) == key && (FullTcp4(pkt) ==> SrcPort(pkt) != tproxy)
  }

  /** A packet that may begin a connection of one of the flows `keys`. */
  predicate OpensOneOf(pkt: Bytes, keys: set<FlowKey>) {
    Opens(pkt) && KeyOf(pkt) in keys
  }

  /** No packet received in the run opens a connection of the flows `keys`. */
  predicate NeverOpens(steps: History<Step>, keys: set<FlowKey>)
    decreases steps
  {
    steps.Then? ==> !(steps.last.Packet? && OpensOneOf(steps.last.pkt, keys)) && NeverOpens(steps.past, keys)
  }

  /** Flow `key` is not recorded as intercepted, and the loop is not about to make it so. */
  ghost predicate Untouched(s: State, key: FlowKey) {
    && (key in s.policies ==> s.policies[key].kind != Intercept)
    && (s.pc != Idle && FullTcp(JobOf(s.pc).pkt) && KeyOf(JobOf(s.pc).pkt) == key ==>
          match s.pc
          case Lookup(job) => !Opens(job.pkt)
          case Forget(job) => !Opens(job.pkt)
          case Decide(job) => !IsConnectionStart(FlagsOf(job.pkt))
          case Record(_, kind, _, _) => kind != Intercept
          case Reverse(_) => true
          case _ => false)
  }

  /** The last output of `r` beyond those of `s`, if it belongs to `key`, is its input, unchanged. */
  ghost predicate NewOutputsVerbatim(s: State, r: State, key: FlowKey) {
    && s.outs <= r.outs && s.inputs <= r.inputs
    && forall n :: |s.outs| <= n < |r.outs| ==>
         var o := r.outs[n];
         && o.idx < |r.inputs|
         && (OnFlow(r.inputs[o.idx].pkt, key, r.cfg.tproxy) ==> Verbatim(o, r.inputs[o.idx]))
  }

  lemma {:induction false} ReceiveLeavesUntouched(s: State, pkt: Bytes, addr: Address, key: FlowKey)
    requires Well(s) && Untouched(s, key)
    requires !(Opens(pkt) && KeyOf(pkt) == key)
    ensures Untouched(Receive(s, pkt, addr), key)
    ensures NewOutputsVerbatim(s, Receive(s, pkt, addr), key)
  {
  }

  lemma {:induction false} LookupStepsLeaveUntouched(s: State, answers: Answers, key: FlowKey)
    requires Well(s) && Untouched(s, key)
    requires s.pc.Lookup? || s.pc.Forget?
    ensures Untouched(Proceed(s, answers), key)
    ensures NewOutputsVerbatim(s, Proceed(s, answers), key)
  {
    hide KeyOf, GoodTable, T.Bijective, RouteOf, Endpoints;
  }

  lemma {:induction false} DecisionStepsLeaveUntouched(s: State, answers: Answers, key: FlowKey)
    requires Well(s) && Untouched(s, key)
    requires s.pc.Idle? || s.pc.Quic? || s.pc.Decide? || s.pc.Record?
    ensures Untouched(Proceed(s, answers), key)
    ensures NewOutputsVerbatim(s, Proceed(s, answers), key)
  {
    hide KeyOf, GoodTable, T.Bijective, RouteOf, Endpoints;
  }

  lemma {:induction false} NatStepsLeaveUntouched(s: State, answers: Answers, key: FlowKey)
    requires Well(s) && Untouched(s, key)
    requires s.pc.Reverse? || s.pc.Check? || s.pc.Register? || s.pc.Release?
    ensures Untouched(Proceed(s, answers), key)
    ensures NewOutputsVerbatim(s, Proceed(s, answers), key)
  {
    hide Hijacked, Reversed, SetPort, KeyOf, GoodTable, T.Bijective, RouteOf, Endpoints, FlagsOf, IsConnectionStart, IsClosing;
    assert !OnFlow(s.pc.job.pkt, key, s.cfg.tproxy);
    if s.pc.Reverse? {
      assert Untouched(ReverseStep(s, s.pc.job, answers), key);
    } else if s.pc.Check? {
      assert Untouched(CheckStep(s, s.pc.job, s.pc.port, answers), key);
    } else if s.pc.Register? {
      assert Untouched(RegisterStep(s, s.pc.job, answers), key);
    }
  }

  lemma {:induction false} ProceedLeavesUntouched(s: State, answers: Answers, key: FlowKey)
    requires Well(s) && Untouched(s, key)
    ensures Untouched(Proceed(s, answers), key)
    ensures NewOutputsVerbatim(s, Proceed(s, answers), key)
  {
    hide Proceed, Untouched, NewOutputsVerbatim;
    if s.pc.Reverse? || s.pc.Check? || s.pc.Register? || s.pc.Release? {
      NatStepsLeaveUntouched(s, answers, key);
    } else if s.pc.Lookup? || s.pc.Forget? {
      LookupStepsLeaveUntouched(s, answers, key);
    } else {
      DecisionStepsLeaveUntouched(s, answers, key);
    }
  }

  /** From any state in which flow `key` is not recorded as intercepted, every continuation without an
      opening packet on `key` leaves it so and sends its packets unchanged, whatever whitelist edits,
      lookup results, sweeps, collections and other flows do meanwhile. */
  lemma {:induction false} NoMidStreamHijack(s: State, steps: History<Step>, key: FlowKey)
    requires Well(s) && Untouched(s, key) && NeverOpens(steps, {key})
    ensures Untouched(Run(s, steps), key)
    ensures NewOutputsVerbatim(s, Run(s, steps), key)
    decreases steps
  {
    hide Proceed, Receive, Untouched, Verbatim;
    if steps.Then? {
      NoMidStreamHijack(s, steps.past, key);
      RunsStayWell(s, steps.past);
      var s1 := Run(s, steps.past);
      match steps.last
      case Packet(pkt, addr) => ReceiveLeavesUntouched(s1, pkt, addr, key);
      case Work(answers) => ProceedLeavesUntouched(s1, answers, key);
      case _ => OthersLeaveUntouched(s1, steps.last, key);
    }
  }

  lemma {:induction false} OthersLeaveUntouched(s: State, step: Step, key: FlowKey)
    requires Well(s) && Untouched(s, key) && !step.Packet? && !step.Work?
    ensures Untouched(Next(s, step), key) && Next(s, step).outs == s.outs && Next(s, step).inputs == s.inputs
  {
  }

  // ---------------------------------------------------------------- nothing of such a flow is held back

  /** Input `n` is still in hand, or has been sent since `s`. */
  ghost predicate InHandOrSent(s: State, r: State, n: nat) {
    || (r.pc != Idle && Unsent(r.pc) && JobOf(r.pc).idx == n)
    || exists m :: |s.outs| <= m < |r.outs| && r.outs[m].idx == n
  }

  ghost predicate NothingHeldBack(s: State, r: State, key: FlowKey) {
    forall n :: |s.inputs| <= n < |r.inputs| && OnFlow(r.inputs[n].pkt, key, r.cfg.tproxy) ==> InHandOrSent(s, r, n)
  }

  lemma {:induction false} ReceiveTakesInHand(s: State, pkt: Bytes, addr: Address, key: FlowKey)
    requires Well(s) && OnFlow(pkt, key, s.cfg.tproxy) && s.pc == Idle
    ensures var r := Receive(s, pkt, addr); InHandOrSent(s, r, |s.inputs|)
  {
    var r := Receive(s, pkt, addr);
    if |r.outs| > |s.outs| {
      assert r.outs[|s.outs|].idx == |s.inputs|;
    }
  }

  lemma {:induction false} ProceedKeepsInHand(s: State, answers: Answers, key: FlowKey)
    requires Well(s) && Untouched(s, key) && s.pc != Idle && Unsent(s.pc)
    requires OnFlow(JobOf(s.pc).pkt, key, s.cfg.tproxy)
    ensures InHandOrSent(s, Proceed(s, answers), JobOf(s.pc).idx)
  {
    var r := Proceed(s, answers);
    assert !s.pc.Reverse? && !s.pc.Quic?;
    if |r.outs| > |s.outs| {
      assert r.outs[|s.outs|].idx == JobOf(s.pc).idx;
    }
  }

  lemma {:induction false} SentStaysSent(s: State, s1: State, r: State, n: nat)
    requires s.outs <= s1.outs <= r.outs
    requires InHandOrSent(s1, r, n) || exists m :: |s.outs| <= m < |s1.outs| && s1.outs[m].idx == n
    ensures InHandOrSent(s, r, n)
  {
    if m :| |s.outs| <= m < |s1.outs| && s1.outs[m].idx == n {
      assert r.outs[m].idx == n;
    } else if m :| |s1.outs| <= m < |r.outs| && r.outs[m].idx == n {
      assert |s.outs| <= m;
    }
  }

  /** And no packet of such a flow is dropped: each one received is sent, or still in the loop's hand. */
  lemma {:induction false} NoMidStreamBlock(s: State, steps: History<Step>, key: FlowKey)
    requires Well(s) && Untouched(s, key) && NeverOpens(steps, {key})
    ensures NothingHeldBack(s, Run(s, steps), key)
    decreases steps
  {
    hide Proceed, Receive, Untouched, InHandOrSent, Unsent, OnFlow;
    if steps.Then? {
      NoMidStreamBlock(s, steps.past, key);
      NoMidStreamHijack(s, steps.past, key);
      RunsStayWell(s, steps.past);
      OneStepHoldsNothingBack(s, Run(s, steps.past), steps.last, key);
    }
  }

  lemma {:induction false} OneStepHoldsNothingBack(s: State, s1: State, step: Step, key: FlowKey)
    requires Well(s1) && Untouched(s1, key)
    requires s.outs <= s1.outs && s.inputs <= s1.inputs && NothingHeldBack(s, s1, key)
    ensures NothingHeldBack(s, Next(s1, step), key)
  {
    var r := Next(s1, step);
    forall n | |s.inputs| <= n < |r.inputs| && OnFlow(r.inputs[n].pkt, key, r.cfg.tproxy)
      ensures InHandOrSent(s, r, n)
    {
      if n == |s1.inputs| {
        ReceiveTakesInHand(s1, step.pkt, step.addr, key);
        SentStaysSent(s, s1, r, n);
      } else if s1.pc != Idle && Unsent(s1.pc) && JobOf(s1.pc).idx == n {
        StillInHand(s1, step, key);
        SentStaysSent(s, s1, r, n);
      } else {
        SentStaysSent(s, s1, r, n);
      }
    }
  }

  lemma {:induction false} StillInHand(s: State, step: Step, key: FlowKey)
    requires Well(s) && Untouched(s, key) && s.pc != Idle && Unsent(s.pc)
    requires OnFlow(JobOf(s.pc).pkt, key, s.cfg.tproxy)
    ensures InHandOrSent(s, Next(s, step), JobOf(s.pc).idx)
  {
    hide Proceed;
    if step.Work? {
      ProceedKeepsInHand(s, step.answers, key);
    }
  }

  // ---------------------------------------------------------------- provenance of interception

  /** At this step the loop decided to intercept `key`: it had in hand an opening packet on `key`, the
      lookup gave a program name, and that name was on the whitelist just then. */
  predicate Approves(s: State, step: Step, key: FlowKey) {
    && s.pc.Decide? && step.Work?
    && Opens(s.pc.job.pkt) && KeyOf(s.pc.job.pkt) == key
    && step.answers.name.Some? && step.answers.name.value in s.cfg.whitelist
  }

  /** Some step of the run approved `key`. */
  predicate Approved(s: State, steps: History<Step>, key: FlowKey)
    requires Sane(s)
    decreases steps
  {
    steps.Then? && (Approves(Run(s, steps.past), steps.last, key) || Approved(s, steps.past, key))
  }

  /** The flow the loop has committed itself to intercept, though the table may not say so yet. */
  predicate Committed(pc: Pc, key: FlowKey) {
    match pc
    case Check(job, _) => FullTcp(job.pkt) && KeyOf(job.pkt) == key
    case Register(job) => FullTcp(job.pkt) && KeyOf(job.pkt) == key
    case Record(job, kind, _, _) => FullTcp(job.pkt) && KeyOf(job.pkt) == key && kind == Intercept
    case _ => false
  }

  predicate Intercepted(s: State, key: FlowKey) {
    (key in s.policies && s.policies[key].kind == Intercept) || Committed(s.pc, key)
  }

  lemma {:induction false} PolicyStepsIntercept(s: State, answers: Answers, key: FlowKey)
    requires Well(s) && Intercepted(Proceed(s, answers), key)
    requires s.pc.Idle? || s.pc.Quic? || s.pc.Lookup? || s.pc.Forget? || s.pc.Decide? || s.pc.Record?
    ensures Intercepted(s, key) || Approves(s, Work(answers), key)
  {
    hide KeyOf, GoodTable, T.Bijective, RouteOf, Endpoints, GoodKey, Has;
  }

  lemma {:induction false} NatStepsIntercept(s: State, answers: Answers, key: FlowKey)
    requires Well(s) && Intercepted(Proceed(s, answers), key)
    requires s.pc.Reverse? || s.pc.Check? || s.pc.Register? || s.pc.Release?
    ensures Intercepted(s, key)
  {
    hide Hijacked, Reversed, SetPort;
  }

  lemma {:induction false} InterceptionIsApproved(s: State, step: Step, key: FlowKey)
    requires Well(s) && Intercepted(Next(s, step), key)
    ensures Intercepted(s, key) || Approves(s, step, key)
  {
    hide Proceed;
    if step.Work? {
      if s.pc.Reverse? || s.pc.Check? || s.pc.Register? || s.pc.Release? {
        NatStepsIntercept(s, step.answers, key);
      } else {
        PolicyStepsIntercept(s, step.answers, key);
      }
    }
  }

  /** Over all runs from the start: an intercepted flow was approved by an earlier step of the run. */
  lemma {:induction false} InterceptionHasProvenance(cfg: Config, ttl: int, steps: History<Step>, key: FlowKey)
    ensures var r := Run(NewState(cfg, ttl), steps);
      key in r.policies && r.policies[key].kind == Intercept ==> Approved(NewState(cfg, ttl), steps, key)
  {
    InterceptedWasApproved(cfg, ttl, steps, key);
  }

  lemma {:induction false} InterceptedWasApproved(cfg: Config, ttl: int, steps: History<Step>, key: FlowKey)
    ensures Intercepted(Run(NewState(cfg, ttl), steps), key) ==> Approved(NewState(cfg, ttl), steps, key)
    decreases steps
  {
    hide Next;
    if steps.Then? && Intercepted(Run(NewState(cfg, ttl), steps), key) {
      InterceptedWasApproved(cfg, ttl, steps.past, key);
      RunsStayWell(NewState(cfg, ttl), steps.past);
      InterceptionIsApproved(Run(NewState(cfg, ttl), steps.past), steps.last, key);
    }
  }
}
