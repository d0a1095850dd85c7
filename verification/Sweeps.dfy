/** What sweeping the policy table can and cannot change. */
module Sweeps {
  import opened Net
  import opened Histories
  import opened Packets
  import opened TrackerModel
  import opened PolicyModel
  import opened PacketLoop
  import opened LoopInvariants
  import opened RouteSafety
  import opened Handling

  // ---------------------------------------------------------------- sweeps between packets

  /** What happens between and including whole packets. */
  datatype Event = Handle(pkt: Bytes, addr: Address, answers: Answers) | Other(step: Step)

  predicate Proper(e: Event) {
    e.Other? ==> !e.step.Packet? && !e.step.Work?
  }

  function Happen(s: State, e: Event): (r: State)
    requires Sane(s) && s.pc == Idle && Proper(e)
    ensures Sane(r) && r.pc == Idle
  {
    match e
    case Handle(pkt, addr, answers) => Process(s, pkt, addr, answers)
    case Other(step) => Next(s, step)
  }

  predicate AllProper(events: History<Event>) {
    events.Then? ==> Proper(events.last) && AllProper(events.past)
  }

  function HappenAll(s: State, events: History<Event>): (r: State)
    requires Sane(s) && s.pc == Idle && AllProper(events)
    ensures Sane(r) && r.pc == Idle
    decreases events
  {
    match events
    case Start => s
    case Then(past, e) => Happen(HappenAll(s, past), e)
  }

  predicate IsSweepOf(e: Event, keys: set<FlowKey>) {
    e.Other? && e.step.Sweep? && e.step.flow in keys
  }

  /** The same events without the sweeps of `keys`. */
  function WithoutSweeps(events: History<Event>, keys: set<FlowKey>): (r: History<Event>)
    requires AllProper(events)
    ensures AllProper(r)
    decreases events
  {
    match events
    case Start => Start
    case Then(past, e) =>
      if IsSweepOf(e, keys) then WithoutSweeps(past, keys) else Then(WithoutSweeps(past, keys), e)
  }

  predicate NoneOpens(events: History<Event>, keys: set<FlowKey>)
    decreases events
  {
    events.Then? ==>
      && !(events.last.Handle? && OpensOneOf(events.last.pkt, keys))
      && NoneOpens(events.past, keys)
  }

  ghost predicate NoneIntercepted(table: Table, keys: set<FlowKey>) {
    forall key <- keys :: key in table ==> table[key].kind != Intercept
  }

  /** The flow whose policy the pending work is about. */
  predicate About(pc: Pc, keys: set<FlowKey>) {
    && !pc.Idle? && !pc.Reverse? && !pc.Quic?
    && FullTcp(JobOf(pc).pkt) && KeyOf(JobOf(pc).pkt) in keys
  }

  /** Two states that differ in nothing but policy entries of `keys`. */
  ghost predicate SameBut(a: State, b: State, keys: set<FlowKey>) {
    b == a.(policies := b.policies) && a.policies - keys == b.policies - keys
  }

  /** And none of these entries is to intercept. */
  ghost predicate Alike(a: State, b: State, keys: set<FlowKey>) {
    SameBut(a, b, keys) && NoneIntercepted(a.policies, keys) && NoneIntercepted(b.policies, keys)
  }

  /** The entries of `keys` are the same in two tables. */
  ghost predicate SameWithin(a: Table, b: Table, keys: set<FlowKey>) {
    forall key <- keys :: (key in a <==> key in b) && (key in a ==> a[key] == b[key])
  }

  lemma {:induction false} SameOutside(a: Table, b: Table, keys: set<FlowKey>, key: FlowKey)
    requires a - keys == b - keys && key !in keys
    ensures key in a <==> key in b
    ensures key in a ==> a[key] == b[key]
  {
    assert key in a <==> key in a - keys;
    assert key in b <==> key in b - keys;
    if key in a {
      assert (a - keys)[key] == a[key] && (b - keys)[key] == b[key];
    }
  }

  lemma {:induction false} LookupSame(a: State, b: State, keys: set<FlowKey>)
    requires Sane(a) && Sane(b) && SameBut(a, b, keys) && !About(a.pc, keys) && a.pc.Lookup?
    ensures var r := LookupStep(a, a.pc.job);
      SameBut(r, LookupStep(b, b.pc.job), keys) && !About(r.pc, keys) && r.policies == a.policies
    ensures LookupStep(b, b.pc.job).policies == b.policies
  {
    hide KeyOf, FlagsOf;
    SameOutside(a.policies, b.policies, keys, KeyOf(a.pc.job.pkt));
  }

  lemma {:induction false} UpdateAlike(a: Table, b: Table, keys: set<FlowKey>, key: FlowKey, p: Policy)
    requires a - keys == b - keys && key !in keys
    ensures a[key := p] - keys == b[key := p] - keys
    ensures (a - {key}) - keys == (b - {key}) - keys
  {
    assert a[key := p] - keys == (a - keys)[key := p];
    assert b[key := p] - keys == (b - keys)[key := p];
    assert (a - {key}) - keys == (a - keys) - {key};
    assert (b - {key}) - keys == (b - keys) - {key};
  }

  lemma {:induction false} ReverseSame(a: State, b: State, answers: Answers, keys: set<FlowKey>)
    requires Sane(a) && Sane(b) && SameBut(a, b, keys) && a.pc.Reverse?
    ensures var r := ReverseStep(a, a.pc.job, answers);
      SameBut(r, ReverseStep(b, b.pc.job, answers), keys) && r.pc == Idle && r.policies == a.policies
    ensures ReverseStep(b, b.pc.job, answers).policies == b.policies
  {
    hide Reversed;
  }

  lemma {:induction false} CheckSame(a: State, b: State, answers: Answers, keys: set<FlowKey>)
    requires Sane(a) && Sane(b) && SameBut(a, b, keys) && !About(a.pc, keys) && a.pc.Check?
    ensures var r := CheckStep(a, a.pc.job, a.pc.port, answers);
      SameBut(r, CheckStep(b, b.pc.job, b.pc.port, answers), keys) && !About(r.pc, keys) && r.policies == a.policies
    ensures CheckStep(b, b.pc.job, b.pc.port, answers).policies == b.policies
  {
    hide Hijacked;
  }

  lemma {:induction false} RegisterSame(a: State, b: State, answers: Answers, keys: set<FlowKey>)
    requires Sane(a) && Sane(b) && SameBut(a, b, keys) && !About(a.pc, keys) && a.pc.Register?
    ensures var r := RegisterStep(a, a.pc.job, answers);
      SameBut(r, RegisterStep(b, b.pc.job, answers), keys) && !About(r.pc, keys) && r.policies == a.policies
    ensures RegisterStep(b, b.pc.job, answers).policies == b.policies
  {
    hide Hijacked, SetPort;
  }

  lemma {:induction false} NatStepsSame(a: State, b: State, answers: Answers, keys: set<FlowKey>)
    requires Sane(a) && Sane(b) && SameBut(a, b, keys) && !About(a.pc, keys)
    requires a.pc.Reverse? || a.pc.Check? || a.pc.Register? || a.pc.Release?
    ensures SameBut(Proceed(a, answers), Proceed(b, answers), keys) && !About(Proceed(a, answers).pc, keys)
    ensures Proceed(a, answers).policies == a.policies && Proceed(b, answers).policies == b.policies
  {
    hide ReverseStep, CheckStep, RegisterStep;
    if a.pc.Reverse? {
      ReverseSame(a, b, answers, keys);
    } else if a.pc.Check? {
      CheckSame(a, b, answers, keys);
    } else if a.pc.Register? {
      RegisterSame(a, b, answers, keys);
    }
  }

  lemma {:induction false} BlindStepsSame(a: State, b: State, answers: Answers, keys: set<FlowKey>)
    requires Sane(a) && Sane(b) && SameBut(a, b, keys) && !About(a.pc, keys)
    requires a.pc.Idle? || a.pc.Quic? || a.pc.Decide?
    ensures SameBut(Proceed(a, answers), Proceed(b, answers), keys) && !About(Proceed(a, answers).pc, keys)
    ensures Proceed(a, answers).policies == a.policies && Proceed(b, answers).policies == b.policies
  {
    hide KeyOf;
  }

  lemma {:induction false} WritingStepsSame(a: State, b: State, answers: Answers, keys: set<FlowKey>)
    requires Sane(a) && Sane(b) && SameBut(a, b, keys) && !About(a.pc, keys) && (a.pc.Forget? || a.pc.Record?)
    ensures SameBut(Proceed(a, answers), Proceed(b, answers), keys) && !About(Proceed(a, answers).pc, keys)
    ensures SameWithin(a.policies, Proceed(a, answers).policies, keys)
    ensures SameWithin(b.policies, Proceed(b, answers).policies, keys)
  {
    hide KeyOf;
    var key := KeyOf(a.pc.job.pkt);
    UpdateAlike(a.policies, b.policies, keys, key, if a.pc.Forget? then Policy(Pass, 0, 0) else Policy(a.pc.kind, a.pc.port, a.now));
  }

  /** Work on a packet that is not of `keys` goes the same way whatever the table says of `keys`. */
  lemma {:induction false} ProceedSame(a: State, b: State, answers: Answers, keys: set<FlowKey>)
    requires Sane(a) && Sane(b) && SameBut(a, b, keys) && !About(a.pc, keys)
    ensures SameBut(Proceed(a, answers), Proceed(b, answers), keys) && !About(Proceed(a, answers).pc, keys)
    ensures SameWithin(a.policies, Proceed(a, answers).policies, keys)
    ensures SameWithin(b.policies, Proceed(b, answers).policies, keys)
  {
    hide LookupStep, About, SameBut;
    if a.pc.Lookup? {
      SamePc(a, b, keys);
      LookupSame(a, b, keys);
    } else if a.pc.Forget? || a.pc.Record? {
      WritingStepsSame(a, b, answers, keys);
    } else if a.pc.Idle? || a.pc.Quic? || a.pc.Decide? {
      BlindStepsSame(a, b, answers, keys);
    } else {
      NatStepsSame(a, b, answers, keys);
    }
  }

  lemma {:induction false} SamePc(a: State, b: State, keys: set<FlowKey>)
    requires SameBut(a, b, keys)
    ensures a.pc == b.pc
  {
  }

  lemma {:induction false} ProceedAlike(a: State, b: State, answers: Answers, keys: set<FlowKey>)
    requires Sane(a) && Sane(b) && Alike(a, b, keys) && !About(a.pc, keys)
    ensures Alike(Proceed(a, answers), Proceed(b, answers), keys)
    ensures !About(Proceed(a, answers).pc, keys)
  {
    hide Proceed, About, SameBut;
    ProceedSame(a, b, answers, keys);
  }

  lemma {:induction false} FinishSame(a: State, b: State, answers: Answers, keys: set<FlowKey>)
    requires Sane(a) && Sane(b) && SameBut(a, b, keys) && !About(a.pc, keys)
    ensures SameBut(Finish(a, answers), Finish(b, answers), keys)
    ensures SameWithin(a.policies, Finish(a, answers).policies, keys)
    ensures SameWithin(b.policies, Finish(b, answers).policies, keys)
    decreases Rank(a.pc)
  {
    hide Proceed, About;
    if a.pc != Idle {
      ProceedSame(a, b, answers, keys);
      RankFalls(a, answers);
      RankFalls(b, answers);
      FinishSame(Proceed(a, answers), Proceed(b, answers), answers, keys);
    }
  }

  /** A packet of a flow of `keys` that opens nothing: sent as it is, whatever the table says of it. */
  lemma {:induction false} QuietPacket(s: State, answers: Answers, keys: set<FlowKey>)
    requires Sane(s) && NoneIntercepted(s.policies, keys)
    requires s.pc.Lookup? && KeyOf(s.pc.job.pkt) in keys && !Opens(s.pc.job.pkt)
    ensures var r := Finish(s, answers);
      && r == Passed(s, s.pc.job).(policies := r.policies)
      && r.policies - keys == s.policies - keys && NoneIntercepted(r.policies, keys)
  {
    hide Finish, NewFlow, KeyOf;
    var job := s.pc.job;
    var key := KeyOf(job.pkt);
    var s1 := if key in s.policies then s.(policies := s.policies - {key}) else s;
    FinishLookup(s, answers);
    FinishNewFlow(s1, job, answers);
    NotUpdated(s.policies, keys, key, Policy(Pass, 0, s.now));
  }

  lemma {:induction false} NotUpdated(table: Table, keys: set<FlowKey>, key: FlowKey, p: Policy)
    requires key in keys
    ensures (table - {key}) - keys == table - keys
    ensures table[key := p] - keys == table - keys
    ensures (table - {key})[key := p] - keys == table - keys
  {
  }

  lemma {:induction false} HandleAlike(a: State, b: State, pkt: Bytes, addr: Address, answers: Answers, keys: set<FlowKey>)
    requires Sane(a) && Sane(b) && Alike(a, b, keys) && a.pc == Idle
    requires !OpensOneOf(pkt, keys)
    ensures Alike(Process(a, pkt, addr, answers), Process(b, pkt, addr, answers), keys)
  {
    hide Finish;
    var a1, b1 := Receive(a, pkt, addr), Receive(b, pkt, addr);
    if About(a1.pc, keys) {
      QuietPacket(a1, answers, keys);
      QuietPacket(b1, answers, keys);
    } else {
      FinishSame(a1, b1, answers, keys);
    }
  }

  lemma {:induction false} OthersAlike(a: State, b: State, step: Step, keys: set<FlowKey>)
    requires Sane(a) && Sane(b) && Alike(a, b, keys) && !step.Packet? && !step.Work?
    ensures Alike(Next(a, step), Next(b, step), keys)
  {
    if step.Sweep? {
      if step.flow in keys {
        assert (a.policies - {step.flow}) - keys == a.policies - keys;
        assert (b.policies - {step.flow}) - keys == b.policies - keys;
      } else {
        SameOutside(a.policies, b.policies, keys, step.flow);
        UpdateAlike(a.policies, b.policies, keys, step.flow, Policy(Pass, 0, 0));
      }
    }
  }

  lemma {:induction false} SweepAlike(a: State, b: State, key: FlowKey, keys: set<FlowKey>)
    requires Sane(a) && Sane(b) && Alike(a, b, keys) && key in keys
    ensures Alike(Next(a, Sweep(key)), b, keys)
  {
    assert (a.policies - {key}) - keys == a.policies - keys;
  }

  /** Whenever the entries of `keys` are swept, the run goes as if they never were: the same packets are
      sent for every flow, the same ports are mapped, and every other policy is the same. The flows of
      `keys` are not intercepted and send no further opening packet. */
  lemma {:induction false} SweepsAreInvisible(s: State, events: History<Event>, keys: set<FlowKey>)
    requires Sane(s) && s.pc == Idle && AllProper(events)
    requires NoneIntercepted(s.policies, keys) && NoneOpens(events, keys)
    ensures Alike(HappenAll(s, events), HappenAll(s, WithoutSweeps(events, keys)), keys)
    decreases events
  {
    hide Process, Next, Alike, Opens;
    match events
    case Start => AlikeItself(s, keys);
    case Then(past, e) =>
      SweepsAreInvisible(s, past, keys);
      var a, b := HappenAll(s, past), HappenAll(s, WithoutSweeps(past, keys));
      if IsSweepOf(e, keys) {
        SweepAlike(a, b, e.step.flow, keys);
      } else if e.Handle? {
        HandleAlike(a, b, e.pkt, e.addr, e.answers, keys);
      } else {
        OthersAlike(a, b, e.step, keys);
      }
  }

  lemma {:induction false} AlikeItself(s: State, keys: set<FlowKey>)
    requires NoneIntercepted(s.policies, keys)
    ensures Alike(s, s, keys)
  {
  }

  /** Two runs that differ only in when entries of `keys` are swept send the same packets. */
  lemma {:induction false} SweepTimesDoNotMatter(s: State, e1: History<Event>, e2: History<Event>, keys: set<FlowKey>)
    requires Sane(s) && s.pc == Idle && AllProper(e1) && AllProper(e2)
    requires NoneIntercepted(s.policies, keys) && NoneOpens(e1, keys) && NoneOpens(e2, keys)
    requires WithoutSweeps(e1, keys) == WithoutSweeps(e2, keys)
    ensures HappenAll(s, e1).outs == HappenAll(s, e2).outs && HappenAll(s, e1).tracker == HappenAll(s, e2).tracker
  {
    hide HappenAll;
    SweepsAreInvisible(s, e1, keys);
    SweepsAreInvisible(s, e2, keys);
  }

  // ---------------------------------------------------------------- sweeps at any moment

  /** The loop has a packet of `keys` in hand that opens nothing, and will send it as it is. */
  predicate Quiet(pc: Pc) {
    match pc
    case Lookup(job) => FullTcp(job.pkt) && !Opens(job.pkt)
    case Forget(job) => FullTcp(job.pkt) && !Opens(job.pkt)
    case Decide(job) => FullTcp(job.pkt) && !Opens(job.pkt) && !IsConnectionStart(FlagsOf(job.pkt))
    case Record(job, kind, _, send) => FullTcp(job.pkt) && !Opens(job.pkt) && kind != Intercept && send
    case _ => false
  }

  /** A run without the sweeps of `keys` that goes along with a run with them. How many steps the loop takes
      over a packet of `keys` depends on whether the table has an entry; so it takes them all at once, at
      the moment when the other run sends the packet. */
  function Lag(s: State, steps: History<Step>, keys: set<FlowKey>): History<Step>
    requires Sane(s)
    decreases steps
  {
    match steps
    case Start => Start
    case Then(past, step) =>
      var a, lag := Run(s, past), Lag(s, past, keys);
      if step.Sweep? && step.flow in keys then lag
      else if step.Work? && About(a.pc, keys) then
        if About(Proceed(a, step.answers).pc, keys) then lag else Then(Then(Then(lag, step), step), step)
      else Then(lag, step)
  }

  /** The steps of everybody but the loop, without the sweeps of `keys`. */
  function Others(steps: History<Step>, keys: set<FlowKey>): History<Step> {
    match steps
    case Start => Start
    case Then(past, step) =>
      if step.Work? || (step.Sweep? && step.flow in keys) then Others(past, keys) else Then(Others(past, keys), step)
  }

  predicate NeverSwept(steps: History<Step>, keys: set<FlowKey>) {
    steps.Then? ==> !(steps.last.Sweep? && steps.last.flow in keys) && NeverSwept(steps.past, keys)
  }

  lemma {:induction false} LagSweepsNothing(s: State, steps: History<Step>, keys: set<FlowKey>)
    requires Sane(s)
    ensures NeverSwept(Lag(s, steps, keys), keys) && Others(Lag(s, steps, keys), keys) == Others(steps, keys)
    decreases steps
  {
    hide Run, Proceed, About;
    if steps.Then? {
      LagSweepsNothing(s, steps.past, keys);
      var lag, step := Lag(s, steps.past, keys), steps.last;
      assert Others(Then(lag, step), keys) ==
        if step.Work? || (step.Sweep? && step.flow in keys) then Others(lag, keys) else Then(Others(lag, keys), step);
      assert step.Work? ==> Others(Then(Then(lag, step), step), keys) == Others(Then(lag, step), keys);
      assert step.Work? ==> Others(Then(Then(Then(lag, step), step), step), keys) == Others(Then(Then(lag, step), step), keys);
      assert step.Work? ==> NeverSwept(Then(lag, step), keys) && NeverSwept(Then(Then(lag, step), step), keys);
    }
  }

  /** `b` differs from `a` in nothing but entries of `keys`, none to intercept, and, while `a` is at work on
      a packet of `keys`, in that `b` has yet to begin with it. */
  ghost predicate Lags(a: State, b: State, keys: set<FlowKey>) {
    && Sane(a) && Sane(b) && Alike(a, b.(pc := a.pc), keys)
    && if About(a.pc, keys) then Quiet(a.pc) && b.pc == Lookup(JobOf(a.pc)) else b.pc == a.pc
  }

  lemma {:induction false} ReceiveLags(a: State, b: State, pkt: Bytes, addr: Address, keys: set<FlowKey>)
    requires Lags(a, b, keys) && !OpensOneOf(pkt, keys)
    ensures Lags(Receive(a, pkt, addr), Receive(b, pkt, addr), keys)
  {
    hide RouteOf, KeyOf;
  }

  lemma {:induction false} OthersLag(a: State, b: State, step: Step, keys: set<FlowKey>)
    requires Lags(a, b, keys) && !step.Packet? && !step.Work?
    ensures Lags(Next(a, step), Next(b, step), keys)
  {
    hide Alike, About, Quiet;
    OthersAlike(a, b.(pc := a.pc), step, keys);
  }

  lemma {:induction false} SweepLags(a: State, b: State, key: FlowKey, keys: set<FlowKey>)
    requires Lags(a, b, keys) && key in keys
    ensures Lags(Next(a, Sweep(key)), b, keys)
  {
    hide About, Quiet;
    SweepAlike(a, b.(pc := a.pc), key, keys);
  }

  lemma {:induction false} WorkLags(a: State, b: State, answers: Answers, keys: set<FlowKey>)
    requires Lags(a, b, keys) && !About(a.pc, keys)
    ensures Lags(Proceed(a, answers), Proceed(b, answers), keys)
  {
    hide Proceed, About, Quiet;
    ProceedAlike(a, b, answers, keys);
  }

  /** One step on a quiet packet of `keys`: it sends nothing and stays quiet, or it sends the packet. */
  lemma {:induction false} QuietStep(a: State, answers: Answers, keys: set<FlowKey>)
    requires Sane(a) && About(a.pc, keys) && Quiet(a.pc) && NoneIntercepted(a.policies, keys)
    ensures var r, job := Proceed(a, answers), JobOf(a.pc);
      && r.policies - keys == a.policies - keys && NoneIntercepted(r.policies, keys)
      && (if About(r.pc, keys)
          then Quiet(r.pc) && JobOf(r.pc) == job && r == a.(policies := r.policies, pc := r.pc)
          else r == Passed(a, job).(policies := r.policies))
  {
    hide KeyOf;
    NotUpdated(a.policies, keys, KeyOf(JobOf(a.pc).pkt), Policy(Pass, 0, a.now));
    if a.pc.Record? {
      NotUpdated(a.policies, keys, KeyOf(a.pc.job.pkt), Policy(a.pc.kind, a.pc.port, a.now));
    }
  }

  /** Three steps are enough for a quiet packet, from its lookup on. */
  lemma {:induction false} ThreeStepsFinish(b: State, answers: Answers)
    requires Sane(b) && b.pc.Lookup? && Quiet(b.pc)
    requires KeyOf(b.pc.job.pkt) in b.policies ==> b.policies[KeyOf(b.pc.job.pkt)].kind != Intercept
    ensures Proceed(Proceed(Proceed(b, answers), answers), answers) == Finish(b, answers)
  {
    hide KeyOf;
    var b1 := Proceed(b, answers);
    var b2 := Proceed(b1, answers);
    var b3 := Proceed(b2, answers);
    assert Finish(b, answers) == Finish(b1, answers);
    assert b1.pc != Idle ==> Finish(b1, answers) == Finish(b2, answers);
    assert b2.pc != Idle ==> Finish(b2, answers) == Finish(b3, answers);
    assert b3.pc == Idle;
  }

  lemma {:induction false} CatchingUp(a: State, b: State, answers: Answers, keys: set<FlowKey>)
    requires Lags(a, b, keys) && About(a.pc, keys) && !About(Proceed(a, answers).pc, keys)
    ensures Lags(Proceed(a, answers), Proceed(Proceed(Proceed(b, answers), answers), answers), keys)
  {
    hide Proceed, Finish, KeyOf, Opens;
    QuietStep(a, answers, keys);
    ThreeStepsFinish(b, answers);
    QuietPacket(b, answers, keys);
  }

  lemma {:induction false} StayingBehind(a: State, b: State, answers: Answers, keys: set<FlowKey>)
    requires Lags(a, b, keys) && About(a.pc, keys) && About(Proceed(a, answers).pc, keys)
    ensures Lags(Proceed(a, answers), b, keys)
  {
    hide Proceed, KeyOf, Opens;
    QuietStep(a, answers, keys);
  }

  lemma {:induction false} LagLags(s: State, steps: History<Step>, keys: set<FlowKey>)
    requires Sane(s) && NoneIntercepted(s.policies, keys) && !About(s.pc, keys) && NeverOpens(steps, keys)
    ensures Lags(Run(s, steps), Run(s, Lag(s, steps, keys)), keys)
    decreases steps
  {
    hide Next, Lags, About, Opens;
    if steps == Start {
      LagsItself(s, keys);
    } else {
      LagLags(s, steps.past, keys);
      var a, b, step := Run(s, steps.past), Run(s, Lag(s, steps.past, keys)), steps.last;
      StepLags(a, b, step, keys);
      if step.Work? && About(a.pc, keys) && !About(Proceed(a, step.answers).pc, keys) {
        RunThrice(s, Lag(s, steps.past, keys), step);
      }
    }
  }

  lemma {:induction false} LagsItself(s: State, keys: set<FlowKey>)
    requires Sane(s) && NoneIntercepted(s.policies, keys) && !About(s.pc, keys)
    ensures Lags(s, s, keys)
  {
    assert s.(pc := s.pc) == s;
  }

  lemma {:induction false} RunThrice(s: State, steps: History<Step>, step: Step)
    requires Sane(s)
    ensures Run(s, Then(Then(Then(steps, step), step), step)) == Next(Next(Next(Run(s, steps), step), step), step)
  {
    hide Next;
    assert Run(s, Then(steps, step)) == Next(Run(s, steps), step);
    assert Run(s, Then(Then(steps, step), step)) == Next(Next(Run(s, steps), step), step);
  }

  lemma {:induction false} StepLags(a: State, b: State, step: Step, keys: set<FlowKey>)
    requires Sane(a) && Sane(b) && Lags(a, b, keys)
    requires !(step.Packet? && OpensOneOf(step.pkt, keys))
    ensures Lags(Next(a, step),
                 if step.Sweep? && step.flow in keys then b
                 else if step.Work? && About(a.pc, keys) then
                   if About(Proceed(a, step.answers).pc, keys) then b else Next(Next(Next(b, step), step), step)
                 else Next(b, step), keys)
  {
    hide Proceed, Receive, Lags, About, Opens;
    if step.Packet? {
      ReceiveLags(a, b, step.pkt, step.addr, keys);
    } else if step.Sweep? && step.flow in keys {
      SweepLags(a, b, step.flow, keys);
    } else if !step.Work? {
      OthersLag(a, b, step, keys);
    } else if !About(a.pc, keys) {
      WorkLags(a, b, step.answers, keys);
    } else if About(Proceed(a, step.answers).pc, keys) {
      StayingBehind(a, b, step.answers, keys);
    } else {
      CatchingUp(a, b, step.answers, keys);
    }
  }

  /** Whenever entries of `keys` are swept, between any two accesses of the loop: some run in which they never
      are, with the same steps of everybody else, has received and sent the same packets, of these flows
      and of all others, has the same ports mapped and the same policies for all other flows. The flows of
      `keys` are not intercepted and send no further opening packet. */
  lemma {:induction false} NobodySeesSweeps(s: State, steps: History<Step>, keys: set<FlowKey>) returns (without: History<Step>)
    requires Sane(s) && NoneIntercepted(s.policies, keys) && !About(s.pc, keys) && NeverOpens(steps, keys)
    ensures NeverSwept(without, keys) && Others(without, keys) == Others(steps, keys)
    ensures var a, b := Run(s, steps), Run(s, without);
      && b.inputs == a.inputs && b.outs == a.outs && b.tracker == a.tracker
      && b.policies - keys == a.policies - keys && b.cfg == a.cfg && b.now == a.now
      && (!About(a.pc, keys) ==> b.pc == a.pc)
  {
    hide Run, About, Lag;
    without := Lag(s, steps, keys);
    LagSweepsNothing(s, steps, keys);
    LagLags(s, steps, keys);
  }

  // ---------------------------------------------------------------- when a sweep shows

  /** A packet by which it can be told that the entry of `key` was swept. While the entry lets the flow pass
      for good it is a SYN of a program on the whitelist, which without the entry is blocked or hijacked.
      While the entry intercepts it is any packet but such a SYN: without the entry the flow is not
      recognised in mid-stream, nor any longer taken for listed, and the packet goes out as it is. A FIN or
      RST tells nothing, nor does an IPv4 packet when no port is left. */
  predicate Tells(s: State, key: FlowKey, pkt: Bytes, answers: Answers)
    requires key in s.policies
  {
    && RouteOf(pkt, s.cfg) == Policed && KeyOf(pkt) == key && !IsClosing(FlagsOf(pkt))
    && (FullTcp6(pkt) || !Exhausted(s, pkt))
    && var chosen := IsConnectionStart(FlagsOf(pkt)) && Listed(s, answers);
       if s.policies[key].kind == Intercept then !chosen else s.policies[key].kind == Pass && chosen
  }

  lemma {:induction false} WellWithout(s: State, key: FlowKey)
    requires Well(s) && s.pc == Idle
    ensures Well(s.(policies := s.policies - {key}))
  {
  }

  lemma {:induction false} HijackedGoesElsewhere(pkt: Bytes, port: Port, tproxy: Port, sums: Sums)
    requires FullTcp4(pkt) && !IsPrivate4(pkt[16..20])
    ensures Hijacked(pkt, port, tproxy, sums) != pkt
  {
    hide WithSums, WithEndpoints, SameElsewhere;
    RewritingIsNat(pkt, ToProxy(port, tproxy), sums);
    assert Endpoints(pkt).dstIP == pkt[16..20];
  }

  lemma {:induction false} PolicedIsPublic(pkt: Bytes, cfg: Config)
    requires RouteOf(pkt, cfg) == Policed && FullTcp4(pkt)
    ensures !IsPrivate4(pkt[16..20])
  {
    hide IsPrivate4;
  }

  /** The loop with a packet of a governed flow in hand. */
  function Taken(s: State, pkt: Bytes, addr: Address): (r: State)
    requires Sane(s) && RouteOf(pkt, s.cfg) == Policed
    ensures Sane(r)
  {
    s.(inputs := s.inputs + [Input(pkt, addr, s.cfg.upstream)], pc := Lookup(Job(|s.inputs|, pkt, addr)))
  }

  lemma {:induction false} OthersPacketsAreSame(a: State, b: State, pkt: Bytes, addr: Address, answers: Answers, keys: set<FlowKey>)
    requires Sane(a) && Sane(b) && SameBut(a, b, keys) && a.pc == Idle
    requires RouteOf(pkt, a.cfg) == Policed ==> KeyOf(pkt) !in keys
    ensures Process(a, pkt, addr, answers).outs == Process(b, pkt, addr, answers).outs
  {
    hide Finish, KeyOf, RouteOf;
    FinishSame(Receive(a, pkt, addr), Receive(b, pkt, addr), answers, keys);
  }

  /** A packet of a flow whose entry lets it pass, unless the packet has the entry deleted. */
  lemma {:induction false} EntryPasses(s: State, pkt: Bytes, addr: Address, answers: Answers)
    requires Sane(s) && s.pc == Idle && RouteOf(pkt, s.cfg) == Policed && !IsClosing(FlagsOf(pkt))
    requires KeyOf(pkt) in s.policies && s.policies[KeyOf(pkt)].kind != Intercept
    requires s.policies[KeyOf(pkt)].kind == Undecided ==> !IsConnectionStart(FlagsOf(pkt))
    ensures Process(s, pkt, addr, answers).outs == s.outs + [Output(|s.inputs|, pkt, addr)]
  {
    hide Process, Finish, KeyOf, RouteOf, NewFlow;
    ProcessByRoute(s, pkt, addr, answers);
    FinishLookup(Taken(s, pkt, addr), answers);
  }

  /** An undecided entry is deleted by an opening packet before it is decided on: it might as well not be there. */
  lemma {:induction false} UndecidedIsNothing(s: State, pkt: Bytes, addr: Address, answers: Answers)
    requires Sane(s) && s.pc == Idle && RouteOf(pkt, s.cfg) == Policed && Opens(pkt)
    requires KeyOf(pkt) in s.policies && s.policies[KeyOf(pkt)].kind == Undecided
    ensures Process(s, pkt, addr, answers) == Process(s.(policies := s.policies - {KeyOf(pkt)}), pkt, addr, answers)
  {
    hide Process, Finish, KeyOf, RouteOf, NewFlow;
    var t := s.(policies := s.policies - {KeyOf(pkt)});
    ProcessByRoute(s, pkt, addr, answers);
    ProcessByRoute(t, pkt, addr, answers);
    FinishLookup(Taken(s, pkt, addr), answers);
    FinishLookup(Taken(t, pkt, addr), answers);
  }

  /** Registering a flow sends its packet unchanged only if no port is left. */
  lemma {:induction false} RegisteringShows(s: State, answers: Answers)
    requires Well(s) && s.pc.Register? && !IsPrivate4(s.pc.job.pkt[16..20])
    ensures var job := s.pc.job;
      Finish(s, answers).outs == s.outs + [Output(job.idx, job.pkt, job.addr)] <==> Exhausted(s, job.pkt)
  {
    hide Finish, Hijacked, KeyOf, IsPrivate4, GoodTable, Exhausted;
    HijackIsAllOrNothing(s, answers);
    var job, r := s.pc.job, Finish(s, answers);
    var passed := s.outs + [Output(job.idx, job.pkt, job.addr)];
    assert |s.outs| != |passed|;
    if !Exhausted(s, job.pkt) && answers.sums.Some? {
      var m := r.tracker.orig[Endpoints(job.pkt)].port;
      HijackedGoesElsewhere(job.pkt, m, s.cfg.tproxy, answers.sums.value);
      assert r.outs[|s.outs|].pkt != passed[|s.outs|].pkt;
    }
  }

  /** What registering sends depends on the tracker and not on the policies. */
  lemma {:induction false} RegisteringIsBlind(a: State, b: State, answers: Answers)
    requires Sane(a) && Sane(b) && a.pc.Register? && b == a.(policies := b.policies)
    ensures Finish(a, answers).outs == Finish(b, answers).outs
  {
    hide Finish, Hijacked, KeyOf, Endpoints, SetPort;
    FinishRegister(a, answers);
    FinishRegister(b, answers);
  }

  /** A packet of an intercepted flow that closes nothing: an IPv6 flow is blocked, and an IPv4 flow whose port
      is not mapped is registered anew. */
  lemma {:induction false} EntryIntercepts(s: State, pkt: Bytes, addr: Address, answers: Answers)
    requires Sane(s) && s.pc == Idle && RouteOf(pkt, s.cfg) == Policed && !IsClosing(FlagsOf(pkt))
    requires KeyOf(pkt) in s.policies && s.policies[KeyOf(pkt)].kind == Intercept
    requires FullTcp4(pkt) ==> !HasMapped(s.tracker, s.policies[KeyOf(pkt)].port)
    ensures Process(s, pkt, addr, answers).outs ==
      if FullTcp4(pkt) then Finish(Taken(s, pkt, addr).(pc := Register(Job(|s.inputs|, pkt, addr))), answers).outs else s.outs
  {
    hide Process, Finish, KeyOf, RouteOf, NewFlow;
    var s1, job := Taken(s, pkt, addr), Job(|s.inputs|, pkt, addr);
    ProcessByRoute(s, pkt, addr, answers);
    FinishLookup(s1, answers);
    if FullTcp4(pkt) {
      var s2 := s1.(pc := Check(job, s.policies[KeyOf(pkt)].port));
      FinishCheck(s2, answers);
      assert s2.(pc := Register(job)) == s1.(pc := Register(job));
    }
  }

  /** A packet that closes nothing of a flow without entry: a SYN of a listed program has its flow blocked or
      registered, and anything else goes out as it is. */
  lemma {:induction false} NoEntryDecides(s: State, pkt: Bytes, addr: Address, answers: Answers)
    requires Sane(s) && s.pc == Idle && RouteOf(pkt, s.cfg) == Policed && !IsClosing(FlagsOf(pkt))
    requires KeyOf(pkt) !in s.policies
    ensures Process(s, pkt, addr, answers).outs ==
      if !(IsConnectionStart(FlagsOf(pkt)) && Listed(s, answers)) then s.outs + [Output(|s.inputs|, pkt, addr)]
      else if FullTcp4(pkt) then Finish(Taken(s, pkt, addr).(pc := Register(Job(|s.inputs|, pkt, addr))), answers).outs
      else s.outs
  {
    hide Process, Finish, KeyOf, RouteOf, NewFlow;
    ProcessByRoute(s, pkt, addr, answers);
    FinishLookup(Taken(s, pkt, addr), answers);
    FinishNewFlow(Taken(s, pkt, addr), Job(|s.inputs|, pkt, addr), answers);
  }

  lemma {:induction false} TakenRegisters(s: State, pkt: Bytes, addr: Address)
    requires Well(s) && s.pc == Idle && RouteOf(pkt, s.cfg) == Policed && FullTcp4(pkt)
    ensures var r := Taken(s, pkt, addr).(pc := Register(Job(|s.inputs|, pkt, addr)));
      Well(r) && !IsPrivate4(pkt[16..20]) && (Exhausted(r, pkt) <==> Exhausted(s, pkt))
  {
    hide GoodTable, RouteOf, IsPrivate4, KeyOf, Endpoints;
    PolicedIsPublic(pkt, s.cfg);
    RegisteringIsWell(s, Taken(s, pkt, addr).(pc := Register(Job(|s.inputs|, pkt, addr))));
  }

  lemma {:induction false} InterceptingSweepShows(s: State, pkt: Bytes, addr: Address, answers: Answers)
    requires Well(s) && s.pc == Idle && RouteOf(pkt, s.cfg) == Policed && !IsClosing(FlagsOf(pkt))
    requires KeyOf(pkt) in s.policies && s.policies[KeyOf(pkt)].kind == Intercept
    requires FullTcp4(pkt) ==> !HasMapped(s.tracker, s.policies[KeyOf(pkt)].port)
    ensures var t := s.(policies := s.policies - {KeyOf(pkt)});
      Process(s, pkt, addr, answers).outs != Process(t, pkt, addr, answers).outs <==> Tells(s, KeyOf(pkt), pkt, answers)
  {
    hide Process, Finish, KeyOf, RouteOf, GoodTable, GoodPc, IsPrivate4, Exhausted, Listed;
    var t := s.(policies := s.policies - {KeyOf(pkt)});
    assert Listed(t, answers) == Listed(s, answers) by { ListedIsBlind(s, t, answers); }
    EntryIntercepts(s, pkt, addr, answers);
    NoEntryDecides(t, pkt, addr, answers);
    assert |s.outs| != |s.outs + [Output(|s.inputs|, pkt, addr)]|;
    if FullTcp4(pkt) {
      var a := Taken(s, pkt, addr).(pc := Register(Job(|s.inputs|, pkt, addr)));
      TakenRegisters(s, pkt, addr);
      RegisteringShows(a, answers);
      RegisteringIsBlind(a, Taken(t, pkt, addr).(pc := Register(Job(|s.inputs|, pkt, addr))), answers);
    }
  }

  lemma {:induction false} ListedIsBlind(s: State, t: State, answers: Answers)
    requires t.cfg == s.cfg
    ensures Listed(t, answers) == Listed(s, answers)
  {
  }

  lemma {:induction false} PassingSweepShows(s: State, pkt: Bytes, addr: Address, answers: Answers)
    requires Well(s) && s.pc == Idle && RouteOf(pkt, s.cfg) == Policed && !IsClosing(FlagsOf(pkt))
    requires KeyOf(pkt) in s.policies && s.policies[KeyOf(pkt)].kind != Intercept
    ensures var t := s.(policies := s.policies - {KeyOf(pkt)});
      Process(s, pkt, addr, answers).outs != Process(t, pkt, addr, answers).outs <==> Tells(s, KeyOf(pkt), pkt, answers)
  {
    hide Process, Finish, KeyOf, RouteOf, GoodTable, GoodPc, IsPrivate4, Exhausted, Listed;
    var t := s.(policies := s.policies - {KeyOf(pkt)});
    if s.policies[KeyOf(pkt)].kind == Undecided && IsConnectionStart(FlagsOf(pkt)) {
      UndecidedIsNothing(s, pkt, addr, answers);
    } else {
      ListedIsBlind(s, t, answers);
      EntryPasses(s, pkt, addr, answers);
      NoEntryDecides(t, pkt, addr, answers);
      assert |s.outs| != |s.outs + [Output(|s.inputs|, pkt, addr)]|;
      if FullTcp4(pkt) {
        WellWithout(s, KeyOf(pkt));
        TakenRegisters(t, pkt, addr);
        RegisteringShows(Taken(t, pkt, addr).(pc := Register(Job(|s.inputs|, pkt, addr))), answers);
        ExhaustedIsBlind(s, t, pkt);
      }
    }
  }

  lemma {:induction false} ExhaustedIsBlind(s: State, t: State, pkt: Bytes)
    requires FullTcp4(pkt) && t.cfg == s.cfg && t.tracker == s.tracker
    ensures Exhausted(t, pkt) == Exhausted(s, pkt)
  {
  }

  /** Exactly when the next packet, of whatever flow, goes out differently because an entry was swept: for
      every entry that a sweep removes, and for every one that does not intercept, expired or not. */
  lemma {:induction false} SweepShowsIff(s: State, key: FlowKey, pkt: Bytes, addr: Address, answers: Answers)
    requires Well(s) && s.pc == Idle && key in s.policies
    requires s.policies[key].kind == Intercept ==> !Keeps(s.policies[key], s.tracker, s.now)
    ensures Process(s, pkt, addr, answers).outs != Process(s.(policies := s.policies - {key}), pkt, addr, answers).outs
       <==> Tells(s, key, pkt, answers)
  {
    hide Process, KeyOf, RouteOf, Exhausted, Listed;
    var t := s.(policies := s.policies - {key});
    assert s.policies - {key} == t.policies - {key};
    if RouteOf(pkt, s.cfg) != Policed || KeyOf(pkt) != key {
      OthersPacketsAreSame(s, t, pkt, addr, answers, {key});
    } else if IsClosing(FlagsOf(pkt)) {
      ClosingPacketPasses(s, pkt, addr, answers);
      ClosingPacketPasses(t, pkt, addr, answers);
    } else if s.policies[key].kind == Intercept {
      UnkeptIsUnmapped(s, pkt);
      InterceptingSweepShows(s, pkt, addr, answers);
    } else {
      PassingSweepShows(s, pkt, addr, answers);
    }
  }

  /** An entry of an intercepted IPv4 flow is removed when its port is no longer mapped. */
  lemma {:induction false} UnkeptIsUnmapped(s: State, pkt: Bytes)
    requires Well(s) && FullTcp(pkt) && KeyOf(pkt) in s.policies && s.policies[KeyOf(pkt)].kind == Intercept
    requires !Keeps(s.policies[KeyOf(pkt)], s.tracker, s.now)
    ensures FullTcp4(pkt) ==> !HasMapped(s.tracker, s.policies[KeyOf(pkt)].port)
  {
    hide KeyOf, GoodKey;
    KeysCarryVersion(pkt);
  }
}
