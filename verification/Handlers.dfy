/** The proxy's connection handlers beside the packet loop, each with the mapping it found, and how long that
    mapping lasts: every handler deletes its mapping when it is done, also one that another handler serves. */
module Handlers {
  import opened Net
  import opened Histories
  import opened Packets
  import opened TrackerModel
  import opened PacketLoop
  import opened LoopInvariants
  import opened LiveFlows
  import T = TrackerProofs

  /** A handler has looked its connection's key up; then it activates the mapping and serves the connection. */
  datatype Handler =
    | Found(key: ConnKey, target: ConnTarget)
    | Serving(key: ConnKey, target: ConnTarget)

  datatype World = World(s: State, handlers: map<nat, Handler>)

  datatype Act =
    | Other(step: PacketLoop.Step)         // the loop, the collector, the sweeper, the clock, an edit
    | Accept(id: nat, key: ConnKey)        // a connection from `key`; its handler looks the mapping up
    | Serve(id: nat)                       // the handler activates the mapping
    | Leave(id: nat)                       // the handler returns, deleting the mapping

  function NewWorld(cfg: Config, ttl: int): World {
    World(NewState(cfg, ttl), map[])
  }

  predicate Serves(w: World, id: nat, key: ConnKey) {
    id in w.handlers && w.handlers[id].Serving? && w.handlers[id].key == key
  }

  /** The step of the packet loop's machine that an act is, if it is one. */
  function StepOf(w: World, act: Act): Option<PacketLoop.Step> {
    match act
    case Other(step) => if step.Open? || step.Close? then None else Some(step)
    case Accept(_, _) => None
    case Serve(id) =>
      if id in w.handlers && w.handlers[id].Found? then Some(Open(w.handlers[id].key)) else None
    case Leave(id) =>
      if id in w.handlers && w.handlers[id].Serving? then Some(Close(w.handlers[id].key)) else None
  }

  function HandlersAfter(w: World, act: Act): map<nat, Handler> {
    match act
    case Other(_) => w.handlers
    case Accept(id, key) =>
      if id in w.handlers || key !in w.s.tracker.entries then w.handlers
      else w.handlers[id := Found(key, w.s.tracker.entries[key])]
    case Serve(id) =>
      if id in w.handlers && w.handlers[id].Found?
      then w.handlers[id := Serving(w.handlers[id].key, w.handlers[id].target)] else w.handlers
    case Leave(id) =>
      if id in w.handlers && w.handlers[id].Serving? then w.handlers - {id} else w.handlers
  }

  function Do(w: World, act: Act): (r: World)
    requires Sane(w.s)
    ensures Sane(r.s)
  {
    var step := StepOf(w, act);
    World(if step.None? then w.s else Next(w.s, step.value), HandlersAfter(w, act))
  }

  function DoAll(w: World, acts: History<Act>): (r: World)
    requires Sane(w.s)
    ensures Sane(r.s)
    decreases acts
  {
    match acts
    case Start => w
    case Then(past, act) => Do(DoAll(w, past), act)
  }

  /** What of a run the packet loop's machine sees. */
  function StepsOf(w: World, acts: History<Act>): History<PacketLoop.Step>
    requires Sane(w.s)
    decreases acts
  {
    match acts
    case Start => Start
    case Then(past, act) =>
      var step := StepOf(DoAll(w, past), act);
      if step.None? then StepsOf(w, past) else Then(StepsOf(w, past), step.value)
  }

  /** Every run with handlers is, seen from the loop, a run of its machine. */
  lemma {:induction false} HandlersAreSteps(w: World, acts: History<Act>)
    requires Sane(w.s)
    ensures DoAll(w, acts).s == Run(w.s, StepsOf(w, acts))
    decreases acts
  {
    hide Next;
    if acts.Then? {
      HandlersAreSteps(w, acts.past);
    }
  }

  // ---------------------------------------------------------------- how long a mapping lasts

  /** At every moment of the run `key` is mapped as it is at the beginning. */
  predicate HeldAlways(w: World, acts: History<Act>, key: ConnKey)
    requires Sane(w.s) && key in w.s.tracker.entries
    decreases acts
  {
    acts.Then? ==>
      && HeldAlways(w, acts.past, key)
      && var entries := DoAll(w, acts).s.tracker.entries; key in entries && entries[key] == w.s.tracker.entries[key]
  }

  /** The loop gives the port back, for want of checksums for a packet of its flow. */
  predicate Releases(w: World, act: Act, key: ConnKey) {
    act.Other? && act.step.Work? && w.s.pc.Release? && Local(w.s.pc.port) == key
  }

  /** No handler has activated the mapping, and it is older than the time to live, which is in seconds. */
  predicate Outlived(t: Tracker, key: ConnKey, now: nat) {
    key in t.entries && key !in t.active && now - t.entries[key].createdAt > t.ttl * 1_000_000_000
  }

  predicate LetsGo(w: World, act: Act, key: ConnKey) {
    || (act.Leave? && Serves(w, act.id, key))
    || Releases(w, act, key)
    || (act.Other? && act.step.Collect? && Outlived(w.s.tracker, key, w.s.now))
  }

  predicate NobodyLetsGo(w: World, acts: History<Act>, key: ConnKey)
    requires Sane(w.s)
    decreases acts
  {
    acts.Then? ==> NobodyLetsGo(w, acts.past, key) && !LetsGo(DoAll(w, acts.past), acts.last, key)
  }

  lemma {:induction false} ActKeepsEntryIff(w: World, act: Act, key: ConnKey)
    requires Sane(w.s) && key in w.s.tracker.entries
    ensures var entries := Do(w, act).s.tracker.entries;
      (key in entries && entries[key] == w.s.tracker.entries[key]) <==> !LetsGo(w, act, key)
  {
    hide SetPort, Hijacked, Reversed, Receive, KeyOf, Endpoints, DecideNewFlow, PolicyModel.SweepEntry;
    if act.Other? && act.step.Work? && w.s.pc.Register? {
      var job := w.s.pc.job;
      SetLeavesOthers(w.s.tracker, Endpoints(job.pkt), job.addr.ifIdx, job.addr.subIfIdx, w.s.now, key);
    }
  }

  /** Over all runs, of any number of handlers: a mapping stays as it is at every moment if and only if no
      handler that serves it leaves, the loop does not release it and no collection finds it expired. */
  lemma {:induction false} MappingHoldsIff(w: World, acts: History<Act>, key: ConnKey)
    requires Sane(w.s) && key in w.s.tracker.entries
    ensures HeldAlways(w, acts, key) <==> NobodyLetsGo(w, acts, key)
    decreases acts
  {
    hide Do, LetsGo;
    if acts.Then? {
      MappingHoldsIff(w, acts.past, key);
      if HeldAlways(w, acts.past, key) {
        HeldIsMapped(w, acts.past, key);
        ActKeepsEntryIff(DoAll(w, acts.past), acts.last, key);
      }
    }
  }

  lemma {:induction false} HeldIsMapped(w: World, acts: History<Act>, key: ConnKey)
    requires Sane(w.s) && key in w.s.tracker.entries && HeldAlways(w, acts, key)
    ensures var entries := DoAll(w, acts).s.tracker.entries; key in entries && entries[key] == w.s.tracker.entries[key]
  {
    hide Do;
  }

  // ---------------------------------------------------------------- the mapping of a serving handler

  predicate NeverLeaves(acts: History<Act>, id: nat)
    decreases acts
  {
    acts.Then? ==> !(acts.last.Leave? && acts.last.id == id) && NeverLeaves(acts.past, id)
  }

  /** Another handler of the same connection key leaves, or the loop releases the port. */
  predicate Interferes(w: World, act: Act, id: nat, key: ConnKey) {
    (act.Leave? && act.id != id && Serves(w, act.id, key)) || Releases(w, act, key)
  }

  predicate NobodyInterferes(w: World, acts: History<Act>, id: nat, key: ConnKey)
    requires Sane(w.s)
    decreases acts
  {
    acts.Then? ==> NobodyInterferes(w, acts.past, id, key) && !Interferes(DoAll(w, acts.past), acts.last, id, key)
  }

  /** A handler stays where it is until it leaves, and a mapping once active stays so while nobody lets go. */
  lemma {:induction false} ServingGoesOn(w: World, acts: History<Act>, id: nat, key: ConnKey)
    requires Sane(w.s) && Serves(w, id, key) && NeverLeaves(acts, id)
    requires key in w.s.tracker.active && key in w.s.tracker.entries
    ensures Serves(DoAll(w, acts), id, key)
    ensures NobodyLetsGo(w, acts, key) ==> key in DoAll(w, acts).s.tracker.active
    decreases acts
  {
    hide Do;
    if acts.Then? {
      ServingGoesOn(w, acts.past, id, key);
      var q := DoAll(w, acts.past);
      OneStaysServing(q, acts.last, id, key);
      if NobodyLetsGo(w, acts, key) {
        MappingHoldsIff(w, acts.past, key);
        HeldIsMapped(w, acts.past, key);
        OneStaysActive(q, acts.last, key);
      }
    }
  }

  lemma {:induction false} OneStaysServing(w: World, act: Act, id: nat, key: ConnKey)
    requires Sane(w.s) && Serves(w, id, key) && !(act.Leave? && act.id == id)
    ensures Serves(Do(w, act), id, key)
  {
    hide Next;
  }

  lemma {:induction false} OneStaysActive(w: World, act: Act, key: ConnKey)
    requires Sane(w.s) && key in w.s.tracker.entries && key in w.s.tracker.active && !LetsGo(w, act, key)
    ensures key in Do(w, act).s.tracker.active
  {
    hide SetPort, Hijacked, Reversed, Receive, KeyOf, Endpoints, DecideNewFlow, PolicyModel.SweepEntry;
    if act.Other? && act.step.Work? && w.s.pc.Register? {
      var job := w.s.pc.job;
      SetLeavesOthers(w.s.tracker, Endpoints(job.pkt), job.addr.ifIdx, job.addr.subIfIdx, w.s.now, key);
    }
  }

  /** Over all runs: while a handler serves a mapping it activated, the mapping stays as it is at every moment
      if and only if no other handler of the same key leaves and the loop does not release the port. Neither
      the collector nor any other flow can take it. */
  lemma {:induction false} ServedMappingHoldsIff(w: World, acts: History<Act>, id: nat, key: ConnKey)
    requires Sane(w.s) && Serves(w, id, key) && NeverLeaves(acts, id)
    requires key in w.s.tracker.active && key in w.s.tracker.entries
    ensures HeldAlways(w, acts, key) <==> NobodyInterferes(w, acts, id, key)
    decreases acts
  {
    hide Do;
    MappingHoldsIff(w, acts, key);
    if acts.Then? {
      ServedMappingHoldsIff(w, acts.past, id, key);
      MappingHoldsIff(w, acts.past, key);
      ServingGoesOn(w, acts.past, id, key);
    }
  }

  /** What a handler activates is there to be served, or was gone already. */
  lemma {:induction false} ActivatedIsServed(w: World, id: nat)
    requires Sane(w.s) && id in w.handlers && w.handlers[id].Found?
    ensures var r, key := Do(w, Serve(id)), w.handlers[id].key;
      && Serves(r, id, key) && r.s.tracker.entries == w.s.tracker.entries
      && (key in w.s.tracker.entries ==> key in r.s.tracker.active)
  {
  }

  // ---------------------------------------------------------------- one handler to a mapping

  /** No connection from `key` is accepted, and checksums can always be computed. */
  predicate NoRivals(acts: History<Act>, key: ConnKey)
    decreases acts
  {
    acts.Then? ==>
      && !(acts.last.Accept? && acts.last.key == key)
      && (acts.last.Other? && acts.last.step.Work? ==> acts.last.step.answers.sums.Some?)
      && NoRivals(acts.past, key)
  }

  /** `id` is the only handler of `key`, and the loop is not about to release a port. */
  predicate Alone(w: World, id: nat, key: ConnKey) {
    !w.s.pc.Release? && forall other <- w.handlers :: other != id ==> w.handlers[other].key != key
  }

  lemma {:induction false} StaysAlone(w: World, act: Act, id: nat, key: ConnKey)
    requires Sane(w.s) && Alone(w, id, key) && NoRivals(Then(Start, act), key)
    ensures Alone(Do(w, act), id, key) && !Interferes(w, act, id, key)
  {
    hide SetPort, Hijacked, Reversed, KeyOf, Endpoints, DecideNewFlow, RouteOf, PolicyModel.SweepEntry;
  }

  /** So the mapping of a handler that is alone with it holds until that handler leaves. */
  lemma {:induction false} LoneHandlerKeepsMapping(w: World, acts: History<Act>, id: nat, key: ConnKey)
    requires Sane(w.s) && Serves(w, id, key) && NeverLeaves(acts, id)
    requires key in w.s.tracker.active && key in w.s.tracker.entries
    requires Alone(w, id, key) && NoRivals(acts, key)
    ensures HeldAlways(w, acts, key) && Alone(DoAll(w, acts), id, key)
    decreases acts
  {
    hide Do, HeldAlways, Alone;
    if acts.Then? {
      LoneHandlerKeepsMapping(w, acts.past, id, key);
      StaysAlone(DoAll(w, acts.past), acts.last, id, key);
      ServedMappingHoldsIff(w, acts.past, id, key);
    }
    ServedMappingHoldsIff(w, acts, id, key);
  }

  // ---------------------------------------------------------------- the flow of a served mapping

  predicate NoEndComes(acts: History<Act>, key: FlowKey)
    decreases acts
  {
    acts.Then? ==> !EndsFlow(acts.last, key) && NoEndComes(acts.past, key)
  }

  /** A FIN or RST of the flow is received. */
  predicate EndsFlow(act: Act, key: FlowKey) {
    && act.Other? && act.step.Packet?
    && FullTcp(act.step.pkt) && KeyOf(act.step.pkt) == key && IsClosing(FlagsOf(act.step.pkt))
  }

  predicate NobodyLeaves(w: World, acts: History<Act>, key: ConnKey)
    requires Sane(w.s)
    decreases acts
  {
    acts.Then? ==>
      && NobodyLeaves(w, acts.past, key)
      && !(acts.last.Leave? && Serves(DoAll(w, acts.past), acts.last.id, key))
  }

  ghost predicate ProxiedAlways(w: World, acts: History<Act>, key: FlowKey, m: Port)
    requires Sane(w.s)
    decreases acts
  {
    Proxied(DoAll(w, acts).s, key, m) && (acts.Then? ==> ProxiedAlways(w, acts.past, key, m))
  }

  lemma {:induction false} StepsNeverEnd(w: World, acts: History<Act>, key: FlowKey, m: Port)
    requires Sane(w.s) && NoEndComes(acts, key) && NobodyLeaves(w, acts, Local(m))
    ensures NeverEnded(StepsOf(w, acts), key, m)
    decreases acts
  {
    hide Do, KeyOf;
    if acts.Then? {
      StepsNeverEnd(w, acts.past, key, m);
    }
  }

  lemma {:induction false} LeavingEndsProxying(w: World, id: nat, key: FlowKey, m: Port)
    requires Sane(w.s) && Serves(w, id, Local(m))
    ensures !Proxied(Do(w, Leave(id)).s, key, m)
  {
  }

  /** Over all runs of loop and handlers: as long as no FIN or RST of it comes, a proxied flow stays proxied
      through its port at every moment if and only if no handler that serves the port leaves, whichever
      connection it serves; and until then what goes out of it goes to that port. */
  lemma {:induction false} ProxiedIffHandlersStay(w: World, acts: History<Act>, key: FlowKey, m: Port)
    requires Well(w.s) && Proxied(w.s, key, m) && NoEndComes(acts, key)
    ensures ProxiedAlways(w, acts, key, m) <==> NobodyLeaves(w, acts, Local(m))
    ensures NobodyLeaves(w, acts, Local(m)) ==> NewOutputsProxied(w.s, DoAll(w, acts).s, key, m)
    decreases acts
  {
    hide Do, Proxied, GoodTable, GoodPc, T.Bijective, NewOutputsProxied, EndsFlow, Serves;
    if acts.Then? {
      ProxiedIffHandlersStay(w, acts.past, key, m);
      if acts.last.Leave? && Serves(DoAll(w, acts.past), acts.last.id, Local(m)) {
        LeavingEndsProxying(DoAll(w, acts.past), acts.last.id, key, m);
      }
    }
    if NobodyLeaves(w, acts, Local(m)) {
      HandlersAreSteps(w, acts);
      StepsNeverEnd(w, acts, key, m);
      LiveFlowStaysProxied(w.s, StepsOf(w, acts), key, m);
    }
  }
}
