/** What every interleaving of the packet loop with the other goroutines keeps. */
module LoopInvariants {
  import opened Net
  import opened Histories
  import opened Packets
  import opened TrackerModel
  import opened PolicyModel
  import opened PacketLoop
  import T = TrackerProofs

  // ---------------------------------------------------------------- shape of the tables

  /** Keys of policed packets: an IPv4 key is never the proxy's own nor of a private destination. */
  predicate GoodKey(key: FlowKey, tproxy: Port) {
    if key.ver == 4 then IsV4Key(key) && key.srcPort != tproxy && !IsPrivate4(key.dstIP[..4])
    else key.ver == 6
  }

  /** An IPv4 entry has a port exactly when it intercepts; an IPv6 entry never has one. */
  predicate GoodEntry(key: FlowKey, kind: Kind, port: Port) {
    if key.ver == 4 then kind == Intercept <==> port != 0 else port == 0
  }

  ghost predicate GoodTable(table: Table, tproxy: Port) {
    forall key <- table :: GoodKey(key, tproxy) && GoodEntry(key, table[key].kind, table[key].port)
  }

  function JobOf(pc: Pc): Job
    requires pc != Idle
  {
    pc.job
  }

  /** A job is the last packet received; a job the policy table governs was not exempt on arrival. */
  ghost predicate GoodJob(s: State, job: Job) {
    && job.idx + 1 == |s.inputs|
    && job.pkt == s.inputs[job.idx].pkt && job.addr == s.inputs[job.idx].addr
  }

  ghost predicate PolicedJob(s: State, job: Job) {
    && GoodJob(s, job) && FullTcp(job.pkt) && GoodKey(KeyOf(job.pkt), s.cfg.tproxy)
    && (FullTcp4(job.pkt) ==> s.inputs[job.idx].upstream != Some(job.pkt[16..20]))
  }

  ghost predicate GoodPc(s: State) {
    match s.pc
    case Idle => true
    case Reverse(job) => GoodJob(s, job) && FullTcp4(job.pkt) && SrcPort(job.pkt) == s.cfg.tproxy
    case Quic(job) => GoodJob(s, job) && !FullTcp(job.pkt)
    case Lookup(job) => PolicedJob(s, job)
    case Forget(job) => PolicedJob(s, job)
    case Decide(job) => PolicedJob(s, job) && !IsClosing(FlagsOf(job.pkt))
    case Check(job, port) => PolicedJob(s, job) && FullTcp4(job.pkt) && port != 0
    case Register(job) => PolicedJob(s, job) && FullTcp4(job.pkt)
    case Release(job, port) =>
      && PolicedJob(s, job) && FullTcp4(job.pkt) && port != 0
      && (Local(port) in s.tracker.entries ==> s.tracker.entries[Local(port)].flow == Endpoints(job.pkt))
    case Record(job, kind, port, send) =>
      && PolicedJob(s, job) && GoodEntry(KeyOf(job.pkt), kind, port) && (send ==> kind != Intercept)
  }

  ghost predicate Well(s: State) {
    && Sane(s)
    && T.Bijective(s.tracker) && s.tracker.reserved == s.cfg.tproxy
    && GoodTable(s.policies, s.cfg.tproxy)
    && GoodPc(s)
  }

  lemma {:induction false} ReceiveKeepsWell(s: State, pkt: Bytes, addr: Address)
    requires Well(s)
    ensures Well(Receive(s, pkt, addr))
  {
    if s.pc == Idle && RouteOf(pkt, s.cfg) == Policed {
      if FullTcp4(pkt) {
        KeyMeansEndpoints(pkt);
      }
    }
  }

  lemma {:induction false} RegisterGetsPort(t: Tracker, flow: OrigFlow, ifIdx: nat, subIfIdx: nat, now: nat)
    requires T.Bijective(t)
    ensures var (t1, mapped) := SetPort(t, flow, ifIdx, subIfIdx, now);
      && T.Bijective(t1) && t1.reserved == t.reserved
      && (mapped.Some? ==> mapped.value != 0 && Local(mapped.value) in t1.entries
                           && t1.entries[Local(mapped.value)].flow == flow)
      && (mapped.None? ==> flow !in t1.orig && t1.entries == t.entries)
  {
    T.ApplyKeepsBijection(t, T.Set(flow, ifIdx, subIfIdx, now));
  }

  lemma {:induction false} RegisterKeepsWell(s: State, answers: Answers)
    requires Well(s) && s.pc.Register?
    ensures Well(RegisterStep(s, s.pc.job, answers))
  {
    hide Hijacked, KeyOf, GoodTable, RouteOf, SetPort, Endpoints;
    var job := s.pc.job;
    KeysCarryVersion(job.pkt);
    var (t, mapped) := SetPort(s.tracker, Endpoints(job.pkt), job.addr.ifIdx, job.addr.subIfIdx, s.now);
    RegisterGetsPort(s.tracker, Endpoints(job.pkt), job.addr.ifIdx, job.addr.subIfIdx, s.now);
  }

  lemma {:induction false} ReleaseKeepsWell(s: State)
    requires Well(s) && s.pc.Release?
    ensures Well(ReleaseStep(s, s.pc.job, s.pc.port))
  {
    T.ApplyKeepsBijection(s.tracker, T.Delete(Local(s.pc.port)));
  }

  lemma {:induction false} RecordKeepsWell(s: State)
    requires Well(s) && s.pc.Record?
    ensures Well(RecordStep(s, s.pc.job, s.pc.kind, s.pc.port, s.pc.send))
  {
  }

  lemma {:induction false} NewFlowKeepsWell(s: State, job: Job)
    requires Well(s) && PolicedJob(s, job)
    ensures Well(NewFlow(s, job))
  {
  }

  lemma {:induction false} LookupKeepsWell(s: State)
    requires Well(s) && s.pc.Lookup?
    ensures Well(LookupStep(s, s.pc.job))
  {
    var job := s.pc.job;
    NewFlowKeepsWell(s, job);
    if FullTcp4(job.pkt) {
      KeyMeansEndpoints(job.pkt);
    }
  }

  lemma {:induction false} ForgetKeepsWell(s: State)
    requires Well(s) && s.pc.Forget?
    ensures Well(ForgetStep(s, s.pc.job))
  {
    var job := s.pc.job;
    NewFlowKeepsWell(s.(policies := s.policies - {KeyOf(job.pkt)}), job);
  }

  lemma {:induction false} DecideKeepsWell(s: State, answers: Answers)
    requires Well(s) && s.pc.Decide?
    ensures Well(DecideStep(s, s.pc.job, answers))
  {
    if FullTcp4(s.pc.job.pkt) {
      KeyMeansEndpoints(s.pc.job.pkt);
    }
  }

  lemma {:induction false} CheckKeepsWell(s: State, answers: Answers)
    requires Well(s) && s.pc.Check?
    ensures Well(CheckStep(s, s.pc.job, s.pc.port, answers))
  {
  }

  lemma {:induction false} ProceedKeepsWell(s: State, answers: Answers)
    requires Well(s)
    ensures Well(Proceed(s, answers))
  {
    hide LookupStep, ForgetStep, DecideStep, CheckStep, RegisterStep, ReleaseStep, RecordStep, T.Bijective;
    match s.pc
    case Idle =>
    case Reverse(_) =>
    case Quic(_) =>
    case Lookup(_) => LookupKeepsWell(s);
    case Forget(_) => ForgetKeepsWell(s);
    case Decide(_) => DecideKeepsWell(s, answers);
    case Check(_, _) => CheckKeepsWell(s, answers);
    case Register(_) => RegisterKeepsWell(s, answers);
    case Release(_, _) => ReleaseKeepsWell(s);
    case Record(_, _, _, _) => RecordKeepsWell(s);
  }

  /** What the other goroutines do to the tracker: entries may go, none is added or changed. */
  lemma {:induction false} LosingEntriesKeepsWell(s: State, op: T.Op)
    requires Well(s) && !op.Set?
    ensures Well(s.(tracker := T.Apply(s.tracker, op)))
  {
    T.ApplyKeepsBijection(s.tracker, op);
  }

  lemma {:induction false} NextKeepsWell(s: State, step: Step)
    requires Sane(s) && Well(s)
    ensures Well(Next(s, step))
  {
    hide Proceed, Receive, Well, TrackerModel.Collect, TrackerModel.Delete, TrackerModel.Activate;
    match step
    case Packet(pkt, addr) => ReceiveKeepsWell(s, pkt, addr);
    case Work(answers) => ProceedKeepsWell(s, answers);
    case Open(key) => LosingEntriesKeepsWell(s, T.Activate(key));
    case Close(key) => LosingEntriesKeepsWell(s, T.Delete(key));
    case Collect => LosingEntriesKeepsWell(s, T.Collect(s.now));
    case Tick(_) => OtherStepsKeepWell(s, step);
    case SetWhitelist(_) => OtherStepsKeepWell(s, step);
    case SetUpstream(_) => OtherStepsKeepWell(s, step);
    case Sweep(_) => OtherStepsKeepWell(s, step);
  }

  lemma {:induction false} OtherStepsKeepWell(s: State, step: Step)
    requires Well(s) && (step.Tick? || step.SetWhitelist? || step.SetUpstream? || step.Sweep?)
    ensures Well(Next(s, step))
  {
    hide T.Bijective, GoodKey, GoodEntry;
  }

  /** Over all runs: the tracker stays a bijection and the policy table keeps its shape. */
  lemma {:induction false} RunsStayWell(s: State, steps: History<Step>)
    requires Well(s)
    ensures Well(Run(s, steps))
    decreases steps
  {
    hide Next;
    if steps.Then? {
      RunsStayWell(s, steps.past);
      NextKeepsWell(Run(s, steps.past), steps.last);
    }
  }

  lemma {:induction false} NewStateIsWell(cfg: Config, ttl: int)
    ensures Well(NewState(cfg, ttl))
  {
  }

  // ---------------------------------------------------------------- order, at most once, and what is sent

  /** An output is its input unchanged, its input rewritten to the proxy, or its input rewritten back. */
  ghost predicate IsHijack(o: Output, i: Input, tproxy: Port) {
    && FullTcp4(i.pkt)
    && (exists port, sums :: o.pkt == Hijacked(i.pkt, port, tproxy, sums))
    && o.addr == HijackedAddr(i.addr)
  }

  ghost predicate IsReverse(o: Output, i: Input, tproxy: Port) {
    && FullTcp4(i.pkt) && SrcPort(i.pkt) == tproxy
    && exists target, sums :: o.pkt == Reversed(i.pkt, target, sums) && o.addr == ReversedAddr(i.addr, target)
  }

  predicate Verbatim(o: Output, i: Input) {
    o.pkt == i.pkt && o.addr == i.addr
  }

  ghost predicate IsImage(o: Output, i: Input, tproxy: Port) {
    Verbatim(o, i) || IsHijack(o, i, tproxy) || IsReverse(o, i, tproxy)
  }

  /** What goes out for `i` while the tracker is `t`: a reply of the proxy goes out rewritten by the mapping of
      its destination, if there is one, and any other packet as it is or over a port that is mapped. */
  ghost predicate SentBy(o: Output, i: Input, t: Tracker, tproxy: Port) {
    if FullTcp4(i.pkt) && SrcPort(i.pkt) == tproxy then SentBack(o, i, t)
    else Verbatim(o, i) || SentToProxy(o, i, t, tproxy)
  }

  ghost predicate SentBack(o: Output, i: Input, t: Tracker)
    requires FullTcp4(i.pkt)
  {
    var key := ConnKey(i.pkt[16..20], DstPort(i.pkt));
    if key !in t.entries then Verbatim(o, i)
    else
      && (exists sums :: o.pkt == Reversed(i.pkt, t.entries[key], sums))
      && o.addr == ReversedAddr(i.addr, t.entries[key])
  }

  ghost predicate SentToProxy(o: Output, i: Input, t: Tracker, tproxy: Port) {
    && FullTcp4(i.pkt)
    && (exists port, sums :: HasMapped(t, port) && o.pkt == Hijacked(i.pkt, port, tproxy, sums))
    && o.addr == HijackedAddr(i.addr)
  }

  lemma {:induction false} SentIsImage(o: Output, i: Input, t: Tracker, tproxy: Port)
    requires SentBy(o, i, t, tproxy)
    ensures IsImage(o, i, tproxy)
  {
    hide Hijacked, Reversed;
  }

  /** Whether the job in hand can still be sent. */
  predicate Unsent(pc: Pc) {
    pc != Idle && (pc.Record? ==> pc.send) && !pc.Release?
  }

  ghost predicate Ordered(s: State) {
    && (forall i, j :: 0 <= i < j < |s.outs| ==> s.outs[i].idx < s.outs[j].idx)
    && (forall o <- s.outs :: o.idx < |s.inputs| - (if Unsent(s.pc) then 1 else 0))
    && (forall o <- s.outs :: IsImage(o, s.inputs[o.idx], s.cfg.tproxy))
  }

  /** Sending one more packet, for the last input received. */
  lemma {:induction false} SendingKeepsOrder(s: State, r: State, o: Output)
    requires Ordered(s) && s.cfg.tproxy == r.cfg.tproxy
    requires s.inputs <= r.inputs && r.outs == s.outs + [o]
    requires o.idx + 1 == |r.inputs| && !Unsent(r.pc)
    requires forall p <- s.outs :: p.idx < o.idx
    requires IsImage(o, r.inputs[o.idx], r.cfg.tproxy)
    ensures Ordered(r)
  {
    forall p <- r.outs ensures p.idx < |r.inputs| && (p in s.outs ==> r.inputs[p.idx] == s.inputs[p.idx]) {}
  }

  /** Between `s` and `r` nothing was sent, or the job in hand was, once. */
  ghost predicate SendsAtMostOnce(s: State, r: State) {
    || (r.outs == s.outs && (Unsent(r.pc) ==> Unsent(s.pc)))
    || (&& s.pc != Idle && Unsent(s.pc) && !Unsent(r.pc)
        && JobOf(s.pc).idx < |s.inputs|
        && |r.outs| == |s.outs| + 1 && r.outs[|s.outs|].idx == JobOf(s.pc).idx
        && SentBy(r.outs[|s.outs|], s.inputs[JobOf(s.pc).idx], r.tracker, s.cfg.tproxy))
  }

  lemma {:induction false} ReverseSends(s: State, answers: Answers)
    requires Well(s) && s.pc.Reverse?
    ensures SendsAtMostOnce(s, ReverseStep(s, s.pc.job, answers))
  {
    hide Reversed, GoodTable, T.Bijective;
  }

  /** A packet the table governs is no reply of the proxy. */
  lemma {:induction false} PolicedIsNoReply(s: State, job: Job)
    requires PolicedJob(s, job)
    ensures !(FullTcp4(job.pkt) && SrcPort(job.pkt) == s.cfg.tproxy)
  {
    if FullTcp4(job.pkt) {
      KeysCarryVersion(job.pkt);
      KeyMeansEndpoints(job.pkt);
    }
  }

  lemma {:induction false} CheckSends(s: State, answers: Answers)
    requires Well(s) && s.pc.Check?
    ensures SendsAtMostOnce(s, CheckStep(s, s.pc.job, s.pc.port, answers))
  {
    hide Hijacked, GoodTable, T.Bijective, KeyOf, GoodKey;
    PolicedIsNoReply(s, s.pc.job);
  }

  lemma {:induction false} RegisterSends(s: State, answers: Answers)
    requires Well(s) && s.pc.Register?
    ensures SendsAtMostOnce(s, RegisterStep(s, s.pc.job, answers))
  {
    hide Hijacked, SetPort, GoodTable, KeyOf, GoodKey, Endpoints, T.Bijective;
    var job := s.pc.job;
    PolicedIsNoReply(s, job);
    RegisterGetsPort(s.tracker, Endpoints(job.pkt), job.addr.ifIdx, job.addr.subIfIdx, s.now);
    var (t, mapped) := SetPort(s.tracker, Endpoints(job.pkt), job.addr.ifIdx, job.addr.subIfIdx, s.now);
    assert mapped.Some? ==> HasMapped(t, mapped.value);
  }

  lemma {:induction false} OthersSend(s: State, answers: Answers)
    requires Well(s) && !s.pc.Reverse? && !s.pc.Check? && !s.pc.Register?
    ensures SendsAtMostOnce(s, Proceed(s, answers))
  {
    hide KeyOf, GoodTable, T.Bijective, GoodKey, SentToProxy, SentBack;
    if s.pc.Lookup? || s.pc.Forget? || s.pc.Decide? || s.pc.Record? || s.pc.Release? {
      PolicedIsNoReply(s, s.pc.job);
    }
  }

  lemma {:induction false} ProceedSends(s: State, answers: Answers)
    requires Well(s)
    ensures SendsAtMostOnce(s, Proceed(s, answers))
  {
    match s.pc
    case Reverse(_) => ReverseSends(s, answers);
    case Check(_, _) => CheckSends(s, answers);
    case Register(_) => RegisterSends(s, answers);
    case _ => OthersSend(s, answers);
  }

  lemma {:induction false} ProceedKeepsOrder(s: State, answers: Answers)
    requires Well(s) && Ordered(s)
    ensures Ordered(Proceed(s, answers))
  {
    hide Proceed, IsImage, SentBy;
    var r := Proceed(s, answers);
    ProceedSends(s, answers);
    if r.outs != s.outs {
      SentIsImage(r.outs[|s.outs|], s.inputs[JobOf(s.pc).idx], r.tracker, s.cfg.tproxy);
      SendingKeepsOrder(s, r, r.outs[|s.outs|]);
    }
  }

  lemma {:induction false} ReceiveKeepsOrder(s: State, pkt: Bytes, addr: Address)
    requires Well(s) && Ordered(s)
    ensures Ordered(Receive(s, pkt, addr))
  {
    var r := Receive(s, pkt, addr);
    if |r.outs| > |s.outs| {
      SendingKeepsOrder(s, r, r.outs[|s.outs|]);
    }
  }

  /** Whatever a step from `q` to `r` sends comes of its input by the tracker as it is at that step. */
  ghost predicate NewSentBy(q: State, r: State) {
    && q.outs <= r.outs
    && forall n :: |q.outs| <= n < |r.outs| ==>
         r.outs[n].idx < |r.inputs| && SentBy(r.outs[n], r.inputs[r.outs[n].idx], r.tracker, r.cfg.tproxy)
  }

  ghost predicate EachSentBy(s: State, steps: History<Step>)
    requires Sane(s)
    decreases steps
  {
    steps.Then? ==> EachSentBy(s, steps.past) && NewSentBy(Run(s, steps.past), Run(s, steps))
  }

  lemma {:induction false} NextSends(s: State, step: Step)
    requires Well(s)
    ensures NewSentBy(s, Next(s, step))
  {
    hide Proceed, SentBack, SentToProxy, GoodTable, T.Bijective;
    if step.Work? {
      ProceedSends(s, step.answers);
    }
  }

  /** Over all runs: the packets sent are, in order, images of a subsequence of those received, each
      input giving at most one output, which is the input itself, a full hijack rewrite of it or a
      full reverse-NAT rewrite of it. And each is sent by the tracker of its moment: a reply of the proxy by
      the mapping its destination has then, a hijacked packet over a port mapped then. */
  lemma {:induction false} RunsStayOrdered(s: State, steps: History<Step>)
    requires Well(s) && Ordered(s)
    ensures Ordered(Run(s, steps)) && EachSentBy(s, steps)
    decreases steps
  {
    hide Next, Ordered, GoodTable, GoodPc, NewSentBy;
    if steps.Then? {
      RunsStayOrdered(s, steps.past);
      RunsStayWell(s, steps.past);
      NextKeepsOrder(Run(s, steps.past), steps.last);
      NextSends(Run(s, steps.past), steps.last);
    }
  }

  lemma {:induction false} NextKeepsOrder(s: State, step: Step)
    requires Well(s) && Ordered(s)
    ensures Ordered(Next(s, step))
  {
    hide Proceed, Receive, Ordered, GoodTable, GoodPc;
    if step.Packet? {
      ReceiveKeepsOrder(s, step.pkt, step.addr);
    } else if step.Work? {
      ProceedKeepsOrder(s, step.answers);
    } else {
      OthersKeepOrder(s, step);
    }
  }

  lemma {:induction false} OthersKeepOrder(s: State, step: Step)
    requires Sane(s) && Ordered(s) && !step.Packet? && !step.Work?
    ensures Ordered(Next(s, step))
  {
    hide IsImage, SweepEntry, TrackerModel.Collect, TrackerModel.Delete, TrackerModel.Activate;
  }
}
