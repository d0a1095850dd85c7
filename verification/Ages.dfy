/** How old mappings and policies get, in nanoseconds of the clock. */
module Ages {
  import opened Net
  import opened Histories
  import opened Packets
  import opened TrackerModel
  import opened PolicyModel
  import opened PacketLoop
  import opened LiveFlows
  import T = TrackerProofs

  // ---------------------------------------------------------------- mappings

  /** The age up to which a mapping is kept that no handler serves, given the time to live in seconds. */
  function Limit(ttl: int): int {
    if ttl <= 0 then 30_000_000_000 else ttl * 1_000_000_000
  }

  function Age(s: State, key: ConnKey): int
    requires key in s.tracker.entries
  {
    s.now - s.tracker.entries[key].createdAt
  }

  /** A step by which `key` is let go of: its handler deletes it, or the loop releases its port. */
  predicate IsGivenUp(s: State, step: Step, key: ConnKey) {
    || (step.Close? && step.key == key)
    || (step.Work? && s.pc.Release? && ConnKey([127, 0, 0, 1], s.pc.port) == key)
  }

  predicate IsNeverGivenUp(s: State, steps: History<Step>, key: ConnKey)
    requires Sane(s)
    decreases steps
  {
    steps.Then? ==> IsNeverGivenUp(s, steps.past, key) && !IsGivenUp(Run(s, steps.past), steps.last, key)
  }

  lemma {:induction false} TtlStays(s: State, steps: History<Step>)
    requires Sane(s)
    ensures Run(s, steps).tracker.ttl == s.tracker.ttl
    decreases steps
  {
    hide Next;
    if steps.Then? {
      TtlStays(s, steps.past);
      StepKeepsTtl(Run(s, steps.past), steps.last);
    }
  }

  lemma {:induction false} StepKeepsTtl(s: State, step: Step)
    requires Sane(s)
    ensures Next(s, step).tracker.ttl == s.tracker.ttl
  {
    hide Hijacked, Reversed, KeyOf, Endpoints, RouteOf, SweepEntry;
  }

  lemma {:induction false} StartTtl(cfg: Config, ttl: int, steps: History<Step>)
    ensures Run(NewState(cfg, ttl), steps).tracker.ttl * 1_000_000_000 == Limit(ttl)
  {
    TtlStays(NewState(cfg, ttl), steps);
  }

  /** One step at a time: what is mapped stays mapped as it is, unless it is given up or a collection comes
      when no handler serves it and it is older than the limit. */
  lemma {:induction false} StepKeepsMappingIff(s: State, step: Step, key: ConnKey, limit: int)
    requires Sane(s) && key in s.tracker.entries && s.tracker.ttl * 1_000_000_000 == limit
    ensures var entries := Next(s, step).tracker.entries;
      (key in entries && entries[key] == s.tracker.entries[key])
      <==> !IsGivenUp(s, step, key) && !(step.Collect? && key !in s.tracker.active && Age(s, key) > limit)
  {
    hide SetPort, Hijacked, Reversed, Receive, KeyOf, Endpoints, DecideNewFlow, SweepEntry;
    if step.Work? && s.pc.Register? {
      var job := s.pc.job;
      SetLeavesOthers(s.tracker, Endpoints(job.pkt), job.addr.ifIdx, job.addr.subIfIdx, s.now, key);
    }
  }

  /** Over all runs from the start: a mapping that is not given up is in the table, unchanged, at every moment at
      which its age is within the limit, whether a handler serves it or not. */
  lemma {:induction false} YoungMappingsStay(cfg: Config, ttl: int, before: History<Step>, steps: History<Step>, key: ConnKey)
    requires var s := Run(NewState(cfg, ttl), before);
      && key in s.tracker.entries && IsNeverGivenUp(s, steps, key)
      && Run(s, steps).now - s.tracker.entries[key].createdAt <= Limit(ttl)
    ensures var s := Run(NewState(cfg, ttl), before);
      var entries := Run(s, steps).tracker.entries;
      key in entries && entries[key] == s.tracker.entries[key]
    decreases steps
  {
    hide Next, Limit, IsGivenUp;
    if steps.Then? {
      var s := Run(NewState(cfg, ttl), before);
      YoungMappingsStay(cfg, ttl, before, steps.past, key);
      StartTtl(cfg, ttl, before);
      TtlStays(s, steps.past);
      StepKeepsMappingIff(Run(s, steps.past), steps.last, key, Limit(ttl));
    }
  }

  /** And of the mappings older than that a collection leaves exactly those that a handler serves. */
  lemma {:induction false} CollectingLeaves(cfg: Config, ttl: int, steps: History<Step>, key: ConnKey)
    requires key in Run(NewState(cfg, ttl), steps).tracker.entries
    ensures var s, r := Run(NewState(cfg, ttl), steps), Run(NewState(cfg, ttl), Then(steps, Step.Collect));
      key in r.tracker.entries <==> key in s.tracker.active || Age(s, key) <= Limit(ttl)
  {
    hide Limit, Run;
    StartTtl(cfg, ttl, steps);
    RunOneMore(cfg, ttl, steps, Step.Collect);
  }

  lemma {:induction false} RunOneMore(cfg: Config, ttl: int, steps: History<Step>, step: Step)
    ensures Run(NewState(cfg, ttl), Then(steps, step)) == Next(Run(NewState(cfg, ttl), steps), step)
  {
  }

  /** The age of a mapping runs from the moment its flow was registered. */
  lemma {:induction false} AgesStartAtRegistration(s: State, answers: Answers, key: ConnKey)
    requires Sane(s) && s.pc.Register? && key !in s.tracker.entries
    ensures var r := Next(s, Work(answers)); key in r.tracker.entries ==> Age(r, key) == 0
  {
    hide Hijacked;
  }

  // ---------------------------------------------------------------- policies

  /** Whether an entry of the policy table is still good: for 15 minutes if its flow is let through, for 5 if it is
      an IPv6 flow that is blocked, and as long as its port is mapped if it is proxied. */
  predicate IsGood(p: Policy, t: Tracker, now: nat) {
    if p.kind != Intercept then now < p.createdAt + 900_000_000_000
    else if p.port == 0 then now < p.createdAt + 300_000_000_000
    else ConnKey([127, 0, 0, 1], p.port) in t.entries
  }

  /** A sweep that comes to an entry removes it if and only if it is no longer good, and nothing else. */
  lemma {:induction false} SweepRemovesIff(s: State, key: FlowKey, other: FlowKey)
    requires Sane(s) && other in s.policies
    ensures var r := Next(s, Sweep(key));
      && r == s.(policies := r.policies)
      && (other in r.policies <==> other != key || IsGood(s.policies[key], s.tracker, s.now))
      && (other in r.policies ==> r.policies[other] == s.policies[other])
  {
  }

  lemma {:induction false} WholeSweepRemovesIff(table: Table, t: Tracker, now: nat, key: FlowKey)
    ensures key in Swept(table, t, now) <==> key in table && IsGood(table[key], t, now)
    ensures key in Swept(table, t, now) ==> Swept(table, t, now)[key] == table[key]
  {
  }
}
