/** The packet loop as a state machine. Each step of the loop is one lock-protected access to the
    tracker, the policy table or the configuration; between any two of them the other goroutines may
    take steps of their own: connection handlers, collector, sweeper, and configuration edits. */
module PacketLoop {
  import opened Net
  import opened Histories
  import opened Packets
  import opened TrackerModel
  import opened PolicyModel

  // ---------------------------------------------------------------- state

  /** `upstream` is the proxy address to leave alone, when it is a literal IPv4 address. */
  datatype Config = Config(upstream: Option<Ip4>, tproxy: Port, whitelist: set<string>)

  /** A packet as received, with the upstream address in force at that moment. */
  datatype Input = Input(pkt: Bytes, addr: Address, upstream: Option<Ip4>)

  /** A packet handed to the send queue: where it came from in the input, and what it has become. */
  datatype Output = Output(idx: nat, pkt: Bytes, addr: Address)

  /** The packet the loop is working on. */
  datatype Job = Job(idx: nat, pkt: Bytes, addr: Address)

  /** What the loop will do next. */
  datatype Pc =
    | Idle
    | Reverse(job: Job)                                          // look the reply's mapping up
    | Quic(job: Job)                                             // ask who owns a UDP/443 socket
    | Lookup(job: Job)                                           // read the flow's policy
    | Forget(job: Job)                                           // delete the flow's policy
    | Decide(job: Job)                                           // choose a route for a new flow
    | Check(job: Job, port: Port)                                // is the recorded port still mapped?
    | Register(job: Job)                                         // ask the tracker for a port
    | Release(job: Job, port: Port)                              // give the port back
    | Record(job: Job, kind: Kind, port: Port, send: bool)       // write the policy, then pass the packet on

  datatype State = State(
    tracker: Tracker,
    policies: Table,
    cfg: Config,
    now: nat,
    pc: Pc,
    inputs: seq<Input>,
    outs: seq<Output>)

  function NewState(cfg: Config, ttl: int): State {
    State(NewTracker(cfg.tproxy, ttl), map[], cfg, 0, Idle, [], [])
  }

  /** What the world answers while one packet is handled: the name found for its socket, if any, and
      the checksums computed for it, if the helper succeeds. */
  datatype Answers = Answers(name: Option<string>, sums: Option<Sums>)

  // ---------------------------------------------------------------- routes

  predicate IsPrivate4(ip: Ip4) {
    || ip[0] in {0, 10, 127}
    || (ip[0] == 169 && ip[1] == 254)
    || (ip[0] == 172 && 16 <= ip[1] <= 31)
    || (ip[0] == 192 && ip[1] == 168)
    || (ip[0] == 100 && 64 <= ip[1] <= 127)
    || (ip[0] == 192 && ip[1] == 0 && ip[2] == 0)
    || ip[0] >= 224
  }

  const ZEROS: Bytes := [0, 0, 0, 0, 0, 0, 0, 0, 0, 0]

  predicate IsPrivate6(ip: Ip16) {
    if ip[..12] == ZEROS + [255, 255] then IsPrivate4(ip[12..])        // an IPv4 address in IPv6 form
    else
      || (ip[..10] == ZEROS && ip[10..15] == [0, 0, 0, 0, 0] && ip[15] <= 1)  // :: and ::1
      || (ip[0] == 254 && ip[1] / 64 in {2, 3})                         // fe80::/10 and fec0::/10
      || ip[0] == 255                                                   // multicast
      || ip[0] / 2 == 126                                               // fc00::/7
  }

  datatype Route = Discard | Through | Filter | Reply | Policed

  /** Where a packet goes before any table is consulted. */
  function RouteOf(pkt: Bytes, cfg: Config): (r: Route)
    ensures r == Reply ==> FullTcp4(pkt) && SrcPort(pkt) == cfg.tproxy
    ensures r == Policed ==> FullTcp(pkt)
    ensures r == Policed && FullTcp4(pkt) ==> SrcPort(pkt) != cfg.tproxy && !IsPrivate4(pkt[16..20])
    ensures FullTcp4(pkt) && SrcPort(pkt) != cfg.tproxy ==>
              r == if cfg.upstream == Some(pkt[16..20]) || IsPrivate4(pkt[16..20]) then Through else Policed
    ensures FullTcp6(pkt) ==> r == if IsPrivate6(pkt[24..40]) then Through else Policed
  {
    if |pkt| < 1 then Discard
    else if Version(pkt) == 6 then Route6(pkt)
    else if Version(pkt) != 4 || |pkt| < 20 then Discard
    else
      var ihl := HeaderLen(pkt);
      if ihl < 20 || |pkt| < ihl then Discard
      else if pkt[9] == 17 then
        if |pkt| < ihl + 8 || U16(pkt, ihl + 2) != 443 || IsPrivate4(pkt[16..20]) then Through
        else if cfg.upstream == Some(pkt[16..20]) then Through
        else Filter
      else if pkt[9] != 6 || |pkt| < ihl + 4 then Discard
      else if |pkt| < ihl + 20 then Through
      else if SrcPort(pkt) == cfg.tproxy then Reply
      else if cfg.upstream == Some(pkt[16..20]) || IsPrivate4(pkt[16..20]) then Through
      else Policed
  }

  /** The route of an IPv4 packet that holds at least the ports of a TCP header. */
  lemma {:induction false} RouteOfTcp4(pkt: Bytes, cfg: Config)
    requires |pkt| >= 20 && Version(pkt) == 4 && HeaderLen(pkt) >= 20 && pkt[9] == 6 && |pkt| >= HeaderLen(pkt) + 4
    ensures RouteOf(pkt, cfg) ==
      if |pkt| < HeaderLen(pkt) + 20 then Through
      else if SrcPort(pkt) == cfg.tproxy then Reply
      else if cfg.upstream == Some(pkt[16..20]) || IsPrivate4(pkt[16..20]) then Through
      else Policed
  {
  }

  function Route6(pkt: Bytes): Route {
    if |pkt| < 40 then Through
    else if pkt[6] == 6 then
      if |pkt| < 60 || IsPrivate6(pkt[24..40]) then Through else Policed
    else if pkt[6] == 17 then
      if |pkt| < 48 || U16(pkt, 42) != 443 || IsPrivate6(pkt[24..40]) then Through else Filter
    else Through
  }

  /** The route of a flow first seen by this packet. Only a pure SYN is looked up; a flow whose
      beginning was not seen is let through. */
  function DecideNewFlow(isStart: bool, name: Option<string>, whitelist: set<string>): Kind {
    if !isStart then Pass
    else if name.None? then Undecided
    else if name.value in whitelist then Intercept
    else Pass
  }

  // ---------------------------------------------------------------- the loop's own steps

  /** The machine with its present job finished, and with `pkt` sent for it. */
  function Sent(s: State, job: Job, pkt: Bytes, addr: Address): State {
    s.(pc := Idle, outs := s.outs + [Output(job.idx, pkt, addr)])
  }

  function Passed(s: State, job: Job): State {
    Sent(s, job, job.pkt, job.addr)
  }

  /** Receiving a packet: the configuration is read once, under its lock. */
  function Receive(s: State, pkt: Bytes, addr: Address): (r: State)
    requires JobIsTcp(s.pc)
    ensures JobIsTcp(r.pc) && s.inputs <= r.inputs && s.outs <= r.outs
    ensures r.tracker == s.tracker && r.policies == s.policies && r.cfg == s.cfg && r.now == s.now
  {
    if s.pc != Idle then s
    else
      var job := Job(|s.inputs|, pkt, addr);
      var s1 := s.(inputs := s.inputs + [Input(pkt, addr, s.cfg.upstream)]);
      match RouteOf(pkt, s.cfg)
      case Discard => s1
      case Through => Passed(s1, job)
      case Filter => s1.(pc := Quic(job))
      case Reply => s1.(pc := Reverse(job))
      case Policed => s1.(pc := Lookup(job))
  }


  /** The header facts each kind of pending work relies on. */
  predicate JobIsTcp(pc: Pc) {
    match pc
    case Idle => true
    case Quic(_) => true
    case Reverse(job) => FullTcp4(job.pkt)
    case Check(job, _) => FullTcp4(job.pkt)
    case Register(job) => FullTcp4(job.pkt)
    case Release(job, _) => FullTcp4(job.pkt)
    case Lookup(job) => FullTcp(job.pkt)
    case Forget(job) => FullTcp(job.pkt)
    case Decide(job) => FullTcp(job.pkt)
    case Record(job, _, _, _) => FullTcp(job.pkt)
  }

  predicate Sane(s: State) {
    JobIsTcp(s.pc) && InRange(s.tracker.nextPort)
  }

  /** What no step of the loop touches, and what it only adds to. */
  ghost predicate LoopFrame(s: State, r: State) {
    && JobIsTcp(r.pc) && InRange(r.tracker.nextPort)
    && r.cfg == s.cfg && r.now == s.now && r.inputs == s.inputs && s.outs <= r.outs
  }

  function ReverseStep(s: State, job: Job, answers: Answers): (r: State)
    requires Sane(s) && FullTcp4(job.pkt)
    ensures LoopFrame(s, r)
  {
    var key := ConnKey(job.pkt[16..20], DstPort(job.pkt));
    if key !in s.tracker.entries then Passed(s, job)
    else if answers.sums.None? then s.(pc := Idle)
    else
      var target := s.tracker.entries[key];
      Sent(s, job, Reversed(job.pkt, target, answers.sums.value), ReversedAddr(job.addr, target))
  }

  function QuicStep(s: State, job: Job, answers: Answers): (r: State)
    requires Sane(s)
    ensures LoopFrame(s, r)
  {
    if answers.name.Some? && answers.name.value in s.cfg.whitelist then s.(pc := Idle) else Passed(s, job)
  }

  /** After the policy lookup found nothing, or its entry was deleted. */
  function NewFlow(s: State, job: Job): (r: State)
    requires Sane(s) && FullTcp(job.pkt)
    ensures LoopFrame(s, r)
  {
    if IsClosing(FlagsOf(job.pkt)) then Passed(s, job) else s.(pc := Decide(job))
  }

  function LookupStep(s: State, job: Job): (r: State)
    requires Sane(s) && FullTcp(job.pkt)
    ensures LoopFrame(s, r)
  {
    var key := KeyOf(job.pkt);
    var flags := FlagsOf(job.pkt);
    if key !in s.policies then NewFlow(s, job)
    else
      var policy := s.policies[key];
      if IsClosing(flags) || (policy.kind == Undecided && IsConnectionStart(flags)) then s.(pc := Forget(job))
      else if policy.kind != Intercept then Passed(s, job)
      else if FullTcp4(job.pkt) then s.(pc := Check(job, policy.port))
      else s.(pc := Idle)
  }

  function ForgetStep(s: State, job: Job): (r: State)
    requires Sane(s) && FullTcp(job.pkt)
    ensures LoopFrame(s, r)
  {
    NewFlow(s.(policies := s.policies - {KeyOf(job.pkt)}), job)
  }

  function DecideStep(s: State, job: Job, answers: Answers): (r: State)
    requires Sane(s) && FullTcp(job.pkt)
    ensures LoopFrame(s, r)
  {
    var kind := DecideNewFlow(IsConnectionStart(FlagsOf(job.pkt)), answers.name, s.cfg.whitelist);
    if kind == Intercept && FullTcp4(job.pkt) then s.(pc := Register(job))
    else s.(pc := Record(job, kind, 0, kind != Intercept))
  }

  /** The hot path: a mapped port recorded in the policy is used without asking the tracker for it. */
  function CheckStep(s: State, job: Job, port: Port, answers: Answers): (r: State)
    requires Sane(s) && FullTcp4(job.pkt)
    ensures LoopFrame(s, r)
  {
    if !HasMapped(s.tracker, port) then s.(pc := Register(job))
    else if answers.sums.None? then s.(pc := Idle)
    else Sent(s, job, Hijacked(job.pkt, port, s.cfg.tproxy, answers.sums.value), HijackedAddr(job.addr))
  }

  function RegisterStep(s: State, job: Job, answers: Answers): (r: State)
    requires Sane(s) && FullTcp4(job.pkt)
    ensures LoopFrame(s, r)
  {
    var (tracker, mapped) := SetPort(s.tracker, Endpoints(job.pkt), job.addr.ifIdx, job.addr.subIfIdx, s.now);
    var s1 := s.(tracker := tracker);
    if mapped.None? then Passed(s1, job).(pc := Record(job, Pass, 0, false))
    else if answers.sums.None? then s1.(pc := Release(job, mapped.value))
    else
      Sent(s1, job, Hijacked(job.pkt, mapped.value, s.cfg.tproxy, answers.sums.value), HijackedAddr(job.addr))
      .(pc := Record(job, Intercept, mapped.value, false))
  }

  function ReleaseStep(s: State, job: Job, port: Port): (r: State)
    requires Sane(s) && FullTcp4(job.pkt)
    ensures LoopFrame(s, r)
  {
    s.(tracker := Delete(s.tracker, Local(port)), pc := Record(job, Pass, 0, false))
  }

  function RecordStep(s: State, job: Job, kind: Kind, port: Port, send: bool): (r: State)
    requires Sane(s) && FullTcp(job.pkt)
    ensures LoopFrame(s, r)
  {
    var s1 := s.(policies := s.policies[KeyOf(job.pkt) := Policy(kind, port, s.now)], pc := Idle);
    if send then Passed(s1, job) else s1
  }

  /** One access of the loop to shared state, and the local work up to the next. */
  function Proceed(s: State, answers: Answers): (r: State)
    requires Sane(s)
    ensures LoopFrame(s, r)
  {
    match s.pc
    case Idle => s
    case Reverse(job) => ReverseStep(s, job, answers)
    case Quic(job) => QuicStep(s, job, answers)
    case Lookup(job) => LookupStep(s, job)
    case Forget(job) => ForgetStep(s, job)
    case Decide(job) => DecideStep(s, job, answers)
    case Check(job, port) => CheckStep(s, job, port, answers)
    case Register(job) => RegisterStep(s, job, answers)
    case Release(job, port) => ReleaseStep(s, job, port)
    case Record(job, kind, port, send) => RecordStep(s, job, kind, port, send)
  }

  // ---------------------------------------------------------------- everybody's steps

  datatype Step =
    | Packet(pkt: Bytes, addr: Address)      // the loop receives a packet, if it is waiting for one
    | Work(answers: Answers)                 // the loop takes its next step
    | Tick(elapsed: nat)
    | SetWhitelist(names: set<string>)
    | SetUpstream(upstream: Option<Ip4>)
    | Open(key: ConnKey)                     // a connection handler activates its mapping
    | Close(key: ConnKey)                    // a connection handler deletes its mapping
    | Collect                                // the tracker's garbage collector runs
    | Sweep(flow: FlowKey)                   // the policy sweeper comes to one entry

  function Next(s: State, step: Step): (r: State)
    requires Sane(s)
    ensures Sane(r)
    ensures r.cfg.tproxy == s.cfg.tproxy && s.now <= r.now && s.inputs <= r.inputs && s.outs <= r.outs
  {
    match step
    case Packet(pkt, addr) => Receive(s, pkt, addr)
    case Work(answers) => Proceed(s, answers)
    case Tick(elapsed) => s.(now := s.now + elapsed)
    case SetWhitelist(names) => s.(cfg := s.cfg.(whitelist := names))
    case SetUpstream(upstream) => s.(cfg := s.cfg.(upstream := upstream))
    case Open(key) => s.(tracker := Activate(s.tracker, key))
    case Close(key) => s.(tracker := Delete(s.tracker, key))
    case Collect => s.(tracker := TrackerModel.Collect(s.tracker, s.now))
    case Sweep(key) => s.(policies := SweepEntry(s.policies, key, s.tracker, s.now))
  }

  function Run(s: State, steps: History<Step>): (r: State)
    requires Sane(s)
    ensures Sane(r)
    ensures r.cfg.tproxy == s.cfg.tproxy && s.now <= r.now && s.inputs <= r.inputs && s.outs <= r.outs
    decreases steps
  {
    match steps
    case Start => s
    case Then(past, step) => Next(Run(s, past), step)
  }
}
