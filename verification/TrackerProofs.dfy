/** What every run of the connection tracker keeps: the table is a bijection, allocation is complete,
    and a port is handed out again only after the cursor has been once around the range. */
module TrackerProofs {
  import opened Net
  import opened Histories
  import opened TrackerModel

  /** One lock-protected operation, with the clock reading it used. */
  datatype Op =
    | Set(flow: OrigFlow, ifIdx: nat, subIfIdx: nat, now: nat)
    | Activate(key: ConnKey)
    | Delete(key: ConnKey)
    | Collect(now: nat)

  function Apply(t: Tracker, op: Op): (r: Tracker)
    requires InRange(t.nextPort)
    ensures InRange(r.nextPort) && r.reserved == t.reserved && r.ttl == t.ttl
  {
    match op
    case Set(flow, ifIdx, subIfIdx, now) => SetPort(t, flow, ifIdx, subIfIdx, now).0
    case Activate(key) => TrackerModel.Activate(t, key)
    case Delete(key) => TrackerModel.Delete(t, key)
    case Collect(now) => TrackerModel.Collect(t, now)
  }

  function Run(t: Tracker, ops: History<Op>): (r: Tracker)
    requires InRange(t.nextPort)
    ensures InRange(r.nextPort) && r.reserved == t.reserved && r.ttl == t.ttl
    decreases ops
  {
    match ops
    case Start => t
    case Then(past, op) => Apply(Run(t, past), op)
  }

  lemma {:induction false} RunAppend(t: Tracker, a: History<Op>, b: History<Op>)
    requires InRange(t.nextPort)
    ensures Run(t, a.Append(b)) == Run(Run(t, a), b)
    decreases b
  {
    if b.Then? {
      RunAppend(t, a, b.past);
    }
  }

  // ---------------------------------------------------------------- the bijection

  /** `orig` and `entries` are inverse to each other through the flow of an entry; only live keys are
      active; every key is a loopback port of the range other than the reserved one. */
  ghost predicate Bijective(t: Tracker) {
    && InRange(t.nextPort)
    && (forall key <- t.entries :: key == Local(key.port) && InRange(key.port) && key.port != t.reserved)
    && (forall key <- t.entries :: t.entries[key].flow in t.orig && t.orig[t.entries[key].flow] == key)
    && (forall flow <- t.orig :: t.orig[flow] in t.entries && t.entries[t.orig[flow]].flow == flow)
    && t.active <= t.entries.Keys
  }

  lemma {:induction false} ApplyKeepsBijection(t: Tracker, op: Op)
    requires Bijective(t)
    ensures Bijective(Apply(t, op))
  {
    match op
    case Set(flow, ifIdx, subIfIdx, now) =>
      var d := Skips(t, t.nextPort, PORTS);
    case _ =>
  }

  lemma {:induction false} RunsStayBijective(t: Tracker, ops: History<Op>)
    requires Bijective(t)
    ensures Bijective(Run(t, ops))
    decreases ops
  {
    if ops.Then? {
      RunsStayBijective(t, ops.past);
      ApplyKeepsBijection(Run(t, ops.past), ops.last);
    }
  }

  /** On every run of a new tracker, two live flows never share a mapped port, and a live flow has
      exactly one: looking a port up and looking its flow up again lead back to the port. */
  lemma {:induction false} LiveFlowsNeverSharePort(reserved: Port, ttl: int, ops: History<Op>, f: OrigFlow, g: OrigFlow)
    ensures var t := Run(NewTracker(reserved, ttl), ops);
      && (f in t.orig && g in t.orig && f != g ==> t.orig[f].port != t.orig[g].port)
      && (f in t.orig ==> HasMapped(t, t.orig[f].port) && t.entries[Local(t.orig[f].port)].flow == f)
      && (f in t.orig <==> exists key :: key in t.entries && t.entries[key].flow == f)
  {
    var t := Run(NewTracker(reserved, ttl), ops);
    RunsStayBijective(NewTracker(reserved, ttl), ops);
    if f in t.orig { assert t.orig[f] in t.entries; }
  }

  // ---------------------------------------------------------------- capacity and completeness

  function Span(lo: int, hi: int): (s: set<int>)
    requires lo <= hi
    ensures |s| == hi - lo && forall x :: x in s <==> lo <= x < hi
    decreases hi - lo
  {
    if lo == hi then {} else Span(lo, hi - 1) + {hi - 1}
  }

  /** Every port the allocator may hand out. */
  function Pool(reserved: Port): (s: set<int>)
    ensures forall x :: x in s <==> InRange(x) && x != reserved
    ensures |s| == Capacity(reserved)
  {
    Span(PORT_MIN, PORT_MAX + 1) - {reserved as int}
  }

  function Capacity(reserved: Port): nat {
    if InRange(reserved) then PORTS - 1 else PORTS
  }

  function Taken(t: Tracker): set<int> {
    set key <- t.entries :: key.port as int
  }

  lemma {:induction false} DistinctPorts(keys: set<ConnKey>)
    requires forall key <- keys :: key == Local(key.port)
    ensures |set key <- keys :: key.port as int| == |keys|
    decreases keys
  {
    var ports := set key <- keys :: key.port as int;
    if keys != {} {
      var key :| key in keys;
      DistinctPorts(keys - {key});
      var fewer := set k <- keys - {key} :: k.port as int;
      assert ports == fewer + {key.port as int};
      assert key.port as int !in fewer;
    }
  }

  lemma {:induction false} SubsetSize(a: set<int>, b: set<int>)
    requires a <= b
    ensures |a| <= |b|
    ensures |a| == |b| <==> a == b
  {
    assert b == a + (b - a);
  }

  /** At most Capacity flows are live at once, and the table is that full exactly when no port is usable. */
  lemma {:induction false} TableIsBounded(t: Tracker)
    requires Bijective(t)
    ensures |t.entries| <= Capacity(t.reserved)
    ensures |t.entries| == Capacity(t.reserved) <==> forall p: Port :: InRange(p) ==> !Usable(t, p)
  {
    DistinctPorts(t.entries.Keys);
    assert Taken(t) <= Pool(t.reserved);
    SubsetSize(Taken(t), Pool(t.reserved));
    assert |Taken(t)| == |t.entries|;
    if Taken(t) == Pool(t.reserved) {
      forall p: Port | InRange(p) ensures !Usable(t, p) {
        if p != t.reserved {
          assert p as int in Taken(t);
        }
      }
    } else {
      var x :| x in Pool(t.reserved) && x !in Taken(t);
      var p: Port := x;
      assert Usable(t, p);
    }
  }

  /** The ring offset from one port of the range to another. */
  function Offset(from: Port, to: Port): (d: nat)
    requires InRange(from) && InRange(to)
    ensures d < PORTS && Advance(from, d) == to
    ensures from != to ==> d > 0
  {
    var d := if to >= from then to - from else to - from + PORTS;
    AdvanceWithinLap(from, d);
    d
  }

  lemma {:induction false} OffsetOfAdvance(port: Port, d: nat)
    requires InRange(port) && d < PORTS
    ensures Offset(port, Advance(port, d)) == d
  {
    AdvanceWithinLap(port, d);
  }

  lemma {:induction false} FirstUsable(t: Tracker)
    requires InRange(t.nextPort)
    ensures var d := Skips(t, t.nextPort, PORTS);
      && (d == PORTS <==> forall p: Port :: InRange(p) ==> !Usable(t, p))
      && (forall p: Port :: InRange(p) && Usable(t, p) ==> d <= Offset(t.nextPort, p))
  {
    var d := Skips(t, t.nextPort, PORTS);
    forall p: Port | InRange(p) && Usable(t, p) ensures d <= Offset(t.nextPort, p) {
      assert Advance(t.nextPort, Offset(t.nextPort, p)) == p;
    }
  }

  /** For a flow that is not mapped, `Set` fails if and only if the table is full: every port of the
      range but the reserved one is taken. It then changes nothing, the cursor being back where it
      began. Otherwise it hands out the first usable port in cursor order and maps just this flow to it. */
  lemma {:induction false} AllocationIsComplete(t: Tracker, flow: OrigFlow, ifIdx: nat, subIfIdx: nat, now: nat)
    requires Bijective(t) && flow !in t.orig
    ensures var (t1, mapped) := SetPort(t, flow, ifIdx, subIfIdx, now);
      && (mapped.None? <==> |t.entries| == Capacity(t.reserved))
      && (mapped.None? ==> t1 == t)
      && (mapped.Some? ==>
            && Usable(t, mapped.value) && InRange(mapped.value)
            && (forall p: Port :: InRange(p) && Usable(t, p) ==>
                  Offset(t.nextPort, mapped.value) <= Offset(t.nextPort, p))
            && t1.entries == t.entries[Local(mapped.value) := ConnTarget(flow, ifIdx, subIfIdx, now)]
            && t1.orig == t.orig[flow := Local(mapped.value)]
            && t1.active == t.active)
  {
    TableIsBounded(t);
    FirstUsable(t);
    var d := Skips(t, t.nextPort, PORTS);
    assert t.orig - {flow} == t.orig;
    if d < PORTS {
      OffsetOfAdvance(t.nextPort, d);
    }
  }

  /** While a mapping lives, asking again for its flow returns the same port and changes nothing. */
  lemma {:induction false} SetIsStable(t: Tracker, ops: History<Op>, flow: OrigFlow, ifIdx: nat, subIfIdx: nat, now: nat)
    requires Bijective(t) && flow in t.orig && StaysMapped(t, ops, t.orig[flow])
    ensures SetPort(Run(t, ops), flow, ifIdx, subIfIdx, now) == (Run(t, ops), Some(t.orig[flow].port))
  {
    MappingPersists(t, ops, t.orig[flow]);
    RunsStayBijective(t, ops);
  }

  /** `key` is in the table at every moment of a run. */
  predicate StaysMapped(t: Tracker, ops: History<Op>, key: ConnKey)
    requires InRange(t.nextPort)
    decreases ops
  {
    key in Run(t, ops).entries && (ops.Then? ==> StaysMapped(t, ops.past, key))
  }

  lemma {:induction false} MappingPersists(t: Tracker, ops: History<Op>, key: ConnKey)
    requires Bijective(t) && StaysMapped(t, ops, key)
    ensures key in t.entries && Run(t, ops).entries[key] == t.entries[key]
    decreases ops
  {
    if ops.Then? {
      MappingPersists(t, ops.past, key);
      RunsStayBijective(t, ops.past);
    }
  }

  // ---------------------------------------------------------------- the lap

  /** What the cursor found at a port it passed. */
  datatype Finding = Reserved | InUse | HandedOut(flow: OrigFlow)
  datatype Visit = Visit(port: Port, finding: Finding)

  function Passed(t: Tracker, port: Port): Visit {
    Visit(port, if port == t.reserved then Reserved else InUse)
  }

  predicate Allocates(t: Tracker, op: Op) {
    op.Set? && !(op.flow in t.orig && t.orig[op.flow] in t.entries)
  }

  /** The ports one operation moves the cursor over, in order. */
  function Visits(t: Tracker, op: Op): seq<Visit>
    requires InRange(t.nextPort)
  {
    if Allocates(t, op) then
      var d := Skips(t, t.nextPort, PORTS);
      seq(d, i requires 0 <= i < d => Passed(t, Advance(t.nextPort, i))) +
      (if d == PORTS then [] else [Visit(Advance(t.nextPort, d), HandedOut(op.flow))])
    else []
  }

  /** The whole journey of the cursor during a run. */
  function Journey(t: Tracker, ops: History<Op>): seq<Visit>
    requires InRange(t.nextPort)
    decreases ops
  {
    match ops
    case Start => []
    case Then(past, op) => Journey(t, past) + Visits(Run(t, past), op)
  }

  lemma {:induction false} VisitsFollowCursor(t: Tracker, op: Op)
    requires InRange(t.nextPort)
    ensures Apply(t, op).nextPort == Advance(t.nextPort, |Visits(t, op)|)
    ensures forall i :: 0 <= i < |Visits(t, op)| ==> Visits(t, op)[i].port == Advance(t.nextPort, i)
  {
    hide Skips, Usable, Visits, SetPort;
    VisitsInOrder(t, op);
    if Allocates(t, op) {
      SetMovesCursor(t, op.flow, op.ifIdx, op.subIfIdx, op.now);
    } else {
      StandsStill(t, op);
    }
  }

  lemma {:induction false} VisitsInOrder(t: Tracker, op: Op)
    requires InRange(t.nextPort)
    ensures var d := Skips(t, t.nextPort, PORTS);
      |Visits(t, op)| == if !Allocates(t, op) then 0 else if d == PORTS then d else d + 1
    ensures forall i :: 0 <= i < |Visits(t, op)| ==> Visits(t, op)[i].port == Advance(t.nextPort, i)
  {
    hide Skips, Usable, Advance, Allocates;
  }

  lemma {:induction false} StandsStill(t: Tracker, op: Op)
    requires InRange(t.nextPort) && !Allocates(t, op)
    ensures Apply(t, op).nextPort == t.nextPort
  {
  }

  lemma {:induction false} SetMovesCursor(t: Tracker, flow: OrigFlow, ifIdx: nat, subIfIdx: nat, now: nat)
    requires InRange(t.nextPort) && !(flow in t.orig && t.orig[flow] in t.entries)
    ensures var d := Skips(t, t.nextPort, PORTS);
      SetPort(t, flow, ifIdx, subIfIdx, now).0.nextPort == Advance(t.nextPort, if d == PORTS then d else d + 1)
  {
    hide Skips, Usable;
    AdvanceLap(t.nextPort, PORTS);
  }

  lemma {:induction false} JourneyFollowsCursor(t: Tracker, ops: History<Op>)
    requires InRange(t.nextPort)
    ensures Run(t, ops).nextPort == Advance(t.nextPort, |Journey(t, ops)|)
    ensures forall i :: 0 <= i < |Journey(t, ops)| ==> Journey(t, ops)[i].port == Advance(t.nextPort, i)
    decreases ops
  {
    if ops.Then? {
      JourneyFollowsCursor(t, ops.past);
      VisitsFollowCursor(Run(t, ops.past), ops.last);
      JoinJourneys(t.nextPort, Journey(t, ops.past), Visits(Run(t, ops.past), ops.last));
    }
  }

  lemma {:induction false} JoinJourneys(port: Port, a: seq<Visit>, b: seq<Visit>)
    requires InRange(port)
    requires forall i :: 0 <= i < |a| ==> a[i].port == Advance(port, i)
    requires forall i :: 0 <= i < |b| ==> b[i].port == Advance(Advance(port, |a|), i)
    ensures forall i :: 0 <= i < |a + b| ==> (a + b)[i].port == Advance(port, i)
    ensures Advance(Advance(port, |a|), |b|) == Advance(port, |a + b|)
  {
    AdvanceAdd(port, |a|, |b|);
    forall i | 0 <= i < |a + b| ensures (a + b)[i].port == Advance(port, i) {
      if i >= |a| {
        AdvanceAdd(port, |a|, i - |a|);
      }
    }
  }

  /** A finding tells the truth about the tracker the operation started from and the one it left. */
  ghost predicate Truthful(t: Tracker, t1: Tracker, v: Visit) {
    match v.finding
    case Reserved => v.port == t.reserved
    case InUse => v.port != t.reserved && Local(v.port) in t.entries
    case HandedOut(flow) =>
      && v.port != t.reserved && Local(v.port) !in t.entries
      && Local(v.port) in t1.entries && t1.entries[Local(v.port)].flow == flow
  }

  lemma {:induction false} VisitsAreTruthful(t: Tracker, op: Op, i: nat)
    requires InRange(t.nextPort) && i < |Visits(t, op)|
    ensures Truthful(t, Apply(t, op), Visits(t, op)[i])
  {
    var d := Skips(t, t.nextPort, PORTS);
    if i < d {
      assert !Usable(t, Advance(t.nextPort, i));
    } else {
      assert Usable(t, Advance(t.nextPort, d));
    }
  }

  /** Every visit of a journey happened during some operation, and told the truth there. */
  lemma {:induction false} VisitHappened(t: Tracker, ops: History<Op>, i: nat) returns (moment: History<Op>)
    requires InRange(t.nextPort) && i < |Journey(t, ops)|
    ensures Prefix(moment, ops) && moment.Then?
    ensures Truthful(Run(t, moment.past), Run(t, moment), Journey(t, ops)[i])
    decreases ops
  {
    var earlier := |Journey(t, ops.past)|;
    if i < earlier {
      moment := VisitHappened(t, ops.past, i);
    } else {
      moment := ops;
      VisitsAreTruthful(Run(t, ops.past), ops.last, i - earlier);
    }
  }

  /** Between two visits of one port, so between two allocations of it, the cursor passes every other
      port of the range, and each was at that moment reserved, in use, or handed out. */
  lemma {:induction false} LapBetweenVisits(t: Tracker, ops: History<Op>, i: nat, j: nat, port: Port)
    returns (l: nat, moment: History<Op>)
    requires InRange(t.nextPort) && InRange(port)
    requires i < j < |Journey(t, ops)|
    requires Journey(t, ops)[i].port == Journey(t, ops)[j].port != port
    ensures i < l < j && Journey(t, ops)[l].port == port
    ensures Prefix(moment, ops) && moment.Then?
    ensures Truthful(Run(t, moment.past), Run(t, moment), Journey(t, ops)[l])
  {
    JourneyFollowsCursor(t, ops);
    l := PortOnTheWay(t.nextPort, i, j, port);
    moment := VisitHappened(t, ops, l);
  }

  lemma {:induction false} PortOnTheWay(start: Port, i: nat, j: nat, port: Port) returns (l: nat)
    requires InRange(start) && InRange(port) && i < j
    requires Advance(start, i) == Advance(start, j) != port
    ensures i < l < j && Advance(start, l) == port
  {
    SamePortSameLap(start, i, j);
    var d := Offset(Advance(start, i), port);
    l := i + d;
    AdvanceAdd(start, i, d);
  }

  // ---------------------------------------------------------------- who owns a port

  /** The flow a port was last handed to during a journey. */
  function LastOwner(journey: seq<Visit>, port: Port): Option<OrigFlow> {
    if journey == [] then None
    else
      var last := journey[|journey| - 1];
      if last.port == port && last.finding.HandedOut? then Some(last.finding.flow)
      else LastOwner(journey[..|journey| - 1], port)
  }

  lemma {:induction false} LastOwnerAppend(a: seq<Visit>, b: seq<Visit>, port: Port)
    ensures LastOwner(a + b, port) == if LastOwner(b, port).Some? then LastOwner(b, port) else LastOwner(a, port)
    decreases |b|
  {
    if b == [] {
      assert a + b == a;
    } else {
      assert (a + b)[..|a + b| - 1] == a + b[..|b| - 1];
      LastOwnerAppend(a, b[..|b| - 1], port);
    }
  }

  lemma {:induction false} NeverHandedOut(journey: seq<Visit>, port: Port)
    requires forall v <- journey :: v.port == port ==> !v.finding.HandedOut?
    ensures LastOwner(journey, port).None?
    decreases |journey|
  {
    if journey != [] {
      NeverHandedOut(journey[..|journey| - 1], port);
    }
  }

  lemma {:induction false} OwnerAfterOp(t: Tracker, op: Op, port: Port)
    requires Bijective(t) && Local(port) in Apply(t, op).entries
    ensures var owner := LastOwner(Visits(t, op), port);
      && (owner.Some? ==> Apply(t, op).entries[Local(port)].flow == owner.value)
      && (owner.None? ==> Local(port) in t.entries && Apply(t, op).entries[Local(port)] == t.entries[Local(port)])
  {
    var visits := Visits(t, op);
    if visits == [] || !visits[|visits| - 1].finding.HandedOut? {
      forall v <- visits ensures !v.finding.HandedOut? {}
      NeverHandedOut(visits, port);
    } else {
      forall v <- visits[..|visits| - 1] ensures !v.finding.HandedOut? {}
      NeverHandedOut(visits[..|visits| - 1], port);
    }
  }

  /** Exactly whose a live port is after any run: of the flow it was last handed to during the run, or,
      if it was not handed out, still what it was at the start, with the whole entry unchanged. */
  lemma {:induction false} PortBelongsToLastOwner(t: Tracker, ops: History<Op>, port: Port)
    requires Bijective(t) && Local(port) in Run(t, ops).entries
    ensures var owner := LastOwner(Journey(t, ops), port);
      && (owner.Some? ==> Run(t, ops).entries[Local(port)].flow == owner.value)
      && (owner.None? ==> Local(port) in t.entries && Run(t, ops).entries[Local(port)] == t.entries[Local(port)])
    decreases ops
  {
    if ops.Then? {
      RunsStayBijective(t, ops.past);
      OwnerAfterOp(Run(t, ops.past), ops.last, port);
      LastOwnerAppend(Journey(t, ops.past), Visits(Run(t, ops.past), ops.last), port);
      if Local(port) in Run(t, ops.past).entries {
        PortBelongsToLastOwner(t, ops.past, port);
      }
    }
  }

  /** `port` was handed to `flow` at some point of a journey. */
  ghost predicate Given(journey: seq<Visit>, port: Port, flow: OrigFlow) {
    exists i :: 0 <= i < |journey| && journey[i] == Visit(port, HandedOut(flow))
  }

  lemma {:induction false} OwnerWasGiven(journey: seq<Visit>, port: Port)
    ensures LastOwner(journey, port).Some? ==> Given(journey, port, LastOwner(journey, port).value)
    decreases |journey|
  {
    if journey != [] {
      var n := |journey| - 1;
      OwnerWasGiven(journey[..n], port);
      if journey[n].port == port && journey[n].finding.HandedOut? {
        assert journey[n] == Visit(port, HandedOut(LastOwner(journey, port).value));
      } else if LastOwner(journey[..n], port).Some? {
        var i :| 0 <= i < n && journey[..n][i] == Visit(port, HandedOut(LastOwner(journey, port).value));
        assert journey[i] == journey[..n][i];
      }
    }
  }

  lemma {:induction false} GivenStaysGiven(journey: seq<Visit>, longer: seq<Visit>, port: Port, flow: OrigFlow)
    requires journey <= longer && Given(journey, port, flow)
    ensures Given(longer, port, flow)
  {
    var i :| 0 <= i < |journey| && journey[i] == Visit(port, HandedOut(flow));
    assert longer[i] == journey[i];
  }

  /** Every mapping of a run that started without any was handed out during the run. */
  lemma {:induction false} MappedWasGiven(t: Tracker, ops: History<Op>, port: Port)
    requires Bijective(t) && t.entries == map[] && Local(port) in Run(t, ops).entries
    ensures Given(Journey(t, ops), port, Run(t, ops).entries[Local(port)].flow)
  {
    PortBelongsToLastOwner(t, ops, port);
    OwnerWasGiven(Journey(t, ops), port);
  }

  /** At every moment of the run after visit `i`, `key` is in the table: it has not been released since. */
  predicate KeptSince(t: Tracker, ops: History<Op>, i: nat, key: ConnKey)
    requires InRange(t.nextPort)
    decreases ops
  {
    |Journey(t, ops)| > i ==> key in Run(t, ops).entries && (ops.Then? ==> KeptSince(t, ops.past, i, key))
  }

  lemma {:induction false} OpLeavesMapped(t: Tracker, op: Op, key: ConnKey)
    requires Bijective(t) && key in t.entries && key in Apply(t, op).entries
    ensures Apply(t, op).entries[key] == t.entries[key]
  {
  }

  /** A port handed out at visit `i` and not released since still belongs to the flow it was handed to. */
  lemma {:induction false} KeptBelongs(t: Tracker, ops: History<Op>, i: nat, port: Port, flow: OrigFlow)
    requires Bijective(t) && i < |Journey(t, ops)| && Journey(t, ops)[i] == Visit(port, HandedOut(flow))
    requires KeptSince(t, ops, i, Local(port))
    ensures Local(port) in Run(t, ops).entries && Run(t, ops).entries[Local(port)].flow == flow
    decreases ops
  {
    hide Apply, Visits;
    var earlier := |Journey(t, ops.past)|;
    RunsStayBijective(t, ops.past);
    if i < earlier {
      KeptBelongs(t, ops.past, i, port, flow);
      OpLeavesMapped(Run(t, ops.past), ops.last, Local(port));
    } else {
      VisitsAreTruthful(Run(t, ops.past), ops.last, i - earlier);
    }
  }

  lemma {:induction false} NotSoonVisited(t: Tracker, ops: History<Op>, i: nat, j: nat)
    requires InRange(t.nextPort) && i < j < |Journey(t, ops)| && j - i < PORTS
    ensures Journey(t, ops)[j].port != Journey(t, ops)[i].port
  {
    JourneyFollowsCursor(t, ops);
    if Journey(t, ops)[j].port == Journey(t, ops)[i].port {
      SamePortSameLap(t.nextPort, i, j);
    }
  }

  lemma {:induction false} OwnerSince(journey: seq<Visit>, i: nat, port: Port, flow: OrigFlow)
    requires i < |journey| && journey[i] == Visit(port, HandedOut(flow))
    requires forall j :: i < j < |journey| ==> journey[j].port != port
    ensures LastOwner(journey, port) == Some(flow)
  {
    var upTo, since := journey[..i + 1], journey[i + 1..];
    forall v <- since ensures v.port != port {
      var k :| 0 <= k < |since| && since[k] == v;
      assert journey[i + 1 + k] == v;
    }
    NeverHandedOut(since, port);
    assert journey == upTo + since && upTo[i] == journey[i];
    LastOwnerAppend(upTo, since, port);
  }

  /** A port in use that was handed out at visit `i`, less than a lap ago, still belongs to the flow it was
      handed to. */
  lemma {:induction false} LapBelongs(t: Tracker, ops: History<Op>, i: nat, port: Port, flow: OrigFlow)
    requires Bijective(t) && i < |Journey(t, ops)| && Journey(t, ops)[i] == Visit(port, HandedOut(flow))
    requires |Journey(t, ops)| - i <= PORTS && Local(port) in Run(t, ops).entries
    ensures Run(t, ops).entries[Local(port)].flow == flow
  {
    hide Run, Journey, LastOwner;
    forall j | i < j < |Journey(t, ops)| ensures Journey(t, ops)[j].port != port {
      NotSoonVisited(t, ops, i, j);
    }
    OwnerSince(Journey(t, ops), i, port, flow);
    PortBelongsToLastOwner(t, ops, port);
  }

  lemma {:induction false} NoReturnWithinLap(port: Port, i: nat)
    requires InRange(port) && i < PORTS - 1
    ensures Advance(Step(port), i) != port
  {
    AdvanceAdd(port, 1, i);
    if Advance(port, i + 1) == port {
      SamePortSameLap(port, 0, i + 1);
    }
  }

  /** The lap bound. From the moment a port is handed out (the cursor stands just after it), a port
      that is in use after fewer than PORTS cursor moves still has the entry it had then. */
  lemma {:induction false} NoLapNoStranger(t: Tracker, ops: History<Op>, port: Port)
    requires Bijective(t) && InRange(port)
    requires t.nextPort == Step(port) && |Journey(t, ops)| < PORTS
    requires HasMapped(Run(t, ops), port)
    ensures Local(port) in t.entries && Run(t, ops).entries[Local(port)] == t.entries[Local(port)]
  {
    JourneyFollowsCursor(t, ops);
    forall i | 0 <= i < |Journey(t, ops)| ensures Journey(t, ops)[i].port != port {
      NoReturnWithinLap(port, i);
    }
    NeverHandedOut(Journey(t, ops), port);
    PortBelongsToLastOwner(t, ops, port);
  }

  // ---------------------------------------------------------------- the lap bound is tight

  function Idle(reserved: Port, ttl: int, cursor: Port): Tracker {
    NewTracker(reserved, ttl).(nextPort := cursor)
  }

  /** The port an idle tracker hands out next: the reserved one is skipped. */
  function FirstPort(reserved: Port, cursor: Port): (port: Port)
    requires InRange(cursor)
    ensures InRange(port) && port != reserved
  {
    if cursor == reserved then Step(cursor) else cursor
  }

  function Connection(before: History<Op>, flow: OrigFlow, port: Port): History<Op> {
    Then(Then(before, Set(flow, 0, 0, 0)), Delete(Local(port)))
  }

  /** Short connections of one flow, each mapped and released before the next, over the next `n` ports but
      the reserved one. */
  function Churn(before: History<Op>, flow: OrigFlow, reserved: Port, cursor: Port, n: nat): History<Op>
    requires InRange(cursor)
    decreases n, cursor
  {
    if n == 0 then before
    else
      var sofar, port := Churn(before, flow, reserved, cursor, n - 1), Advance(cursor, n - 1);
      if port == reserved then sofar else Connection(sofar, flow, port)
  }

  /** Whether the last of `n` ports from `cursor` on is the reserved one, which the cursor has yet to pass. */
  predicate StopsAtReserved(reserved: Port, cursor: Port, n: nat)
    requires InRange(cursor)
  {
    n > 0 && Advance(cursor, n - 1) == reserved
  }

  function CursorAfter(reserved: Port, cursor: Port, n: nat): (r: Port)
    requires InRange(cursor)
    ensures InRange(r) && FirstPort(reserved, r) == FirstPort(reserved, Advance(cursor, n))
  {
    if StopsAtReserved(reserved, cursor, n) then reserved else Advance(cursor, n)
  }

  lemma {:induction false} SetOnIdle(reserved: Port, ttl: int, cursor: Port, flow: OrigFlow)
    requires InRange(cursor)
    ensures var t, op, port := Idle(reserved, ttl, cursor), Set(flow, 0, 0, 0), FirstPort(reserved, cursor);
      && Apply(t, op) == Mapped(reserved, ttl, Step(port), port, flow)
      && |Visits(t, op)| == if cursor == reserved then 2 else 1
  {
    var t, port := Idle(reserved, ttl, cursor), FirstPort(reserved, cursor);
    assert Usable(t, port);
    assert Skips(t, port, PORTS) == 0 && Skips(t, port, PORTS - 1) == 0;
    assert Skips(t, cursor, PORTS) == if cursor == reserved then 1 else 0;
    assert Advance(cursor, 0) == cursor && Advance(cursor, 1) == Step(cursor);
  }

  /** An idle tracker with one flow mapped to `port`. */
  function Mapped(reserved: Port, ttl: int, cursor: Port, port: Port, flow: OrigFlow): Tracker {
    Idle(reserved, ttl, cursor).(entries := map[Local(port) := ConnTarget(flow, 0, 0, 0)],
                                 orig := map[flow := Local(port)])
  }

  lemma {:induction false} ReleaseToIdle(reserved: Port, ttl: int, cursor: Port, port: Port, flow: OrigFlow)
    ensures TrackerModel.Delete(Mapped(reserved, ttl, cursor, port, flow), Local(port)) == Idle(reserved, ttl, cursor)
  {
    assert map[Local(port) := ConnTarget(flow, 0, 0, 0)] - {Local(port)} == map[];
    assert map[flow := Local(port)] - {flow} == map[];
  }

  lemma {:induction false} OneMoreOp(t: Tracker, ops: History<Op>, t0: Tracker, op: Op, t1: Tracker, moves: nat)
    requires InRange(t.nextPort) && InRange(t0.nextPort)
    requires Run(t, ops) == t0 && Apply(t0, op) == t1 && |Visits(t0, op)| == moves
    ensures Run(t, Then(ops, op)) == t1
    ensures |Journey(t, Then(ops, op))| == |Journey(t, ops)| + moves
  {
  }

  lemma {:induction false} ConnectionMovesCursor(t: Tracker, ops: History<Op>, reserved: Port, ttl: int, cursor: Port, flow: OrigFlow)
    requires InRange(t.nextPort) && InRange(cursor)
    requires Run(t, ops) == Idle(reserved, ttl, cursor)
    ensures var port := FirstPort(reserved, cursor);
      && Run(t, Connection(ops, flow, port)) == Idle(reserved, ttl, Step(port))
      && |Journey(t, Connection(ops, flow, port))| == |Journey(t, ops)| + if cursor == reserved then 2 else 1
  {
    hide Apply, Visits, Run, Journey;
    var port := FirstPort(reserved, cursor);
    var before, open, after := Idle(reserved, ttl, cursor), Mapped(reserved, ttl, Step(port), port, flow),
                               Idle(reserved, ttl, Step(port));
    SetOnIdle(reserved, ttl, cursor, flow);
    OneMoreOp(t, ops, before, Set(flow, 0, 0, 0), open, if cursor == reserved then 2 else 1);
    ReleaseToIdle(reserved, ttl, Step(port), port, flow);
    DeleteDoes(open, Local(port), after);
    OneMoreOp(t, Then(ops, Set(flow, 0, 0, 0)), open, Delete(Local(port)), after, 0);
  }

  lemma {:induction false} DeleteDoes(t: Tracker, key: ConnKey, t1: Tracker)
    requires InRange(t.nextPort) && TrackerModel.Delete(t, key) == t1
    ensures Apply(t, Delete(key)) == t1 && Visits(t, Delete(key)) == []
  {
  }

  lemma {:induction false} ChurnMovesCursor(
      t: Tracker, ops: History<Op>, reserved: Port, ttl: int, cursor: Port, flow: OrigFlow, n: nat)
    requires InRange(t.nextPort) && InRange(cursor)
    requires Run(t, ops) == Idle(reserved, ttl, cursor)
    ensures Run(t, Churn(ops, flow, reserved, cursor, n)) == Idle(reserved, ttl, CursorAfter(reserved, cursor, n))
    ensures |Journey(t, Churn(ops, flow, reserved, cursor, n))| ==
      |Journey(t, ops)| + n - if StopsAtReserved(reserved, cursor, n) then 1 else 0
    decreases n
  {
    hide Run, Journey, Idle;
    if n > 0 {
      ChurnMovesCursor(t, ops, reserved, ttl, cursor, flow, n - 1);
      var before, port := Churn(ops, flow, reserved, cursor, n - 1), Advance(cursor, n - 1);
      assert Advance(cursor, n) == Step(port);
      if port != reserved {
        assert FirstPort(reserved, CursorAfter(reserved, cursor, n - 1)) == port;
        ConnectionMovesCursor(t, before, reserved, ttl, CursorAfter(reserved, cursor, n - 1), flow);
      }
    }
  }

  /** NoLapNoStranger fails at PORTS moves: flow `f` is mapped and released, `g` opens and closes one
      connection after the other, and the port of `f` is live again as the port of `g`. */
  lemma {:induction false} ALapReassignsPort(reserved: Port, ttl: int, f: OrigFlow, g: OrigFlow) returns (ops: History<Op>)
    requires f != g
    ensures var t := Apply(NewTracker(reserved, ttl), Set(f, 0, 0, 0));
      && f in t.orig && InRange(t.orig[f].port) && t.nextPort == Step(t.orig[f].port)
      && |Journey(t, ops)| == PORTS
      && HasMapped(Run(t, ops), t.orig[f].port) && Run(t, ops).entries[t.orig[f]].flow == g
  {
    hide Apply, Visits, Run, Journey;
    var p := FirstPort(reserved, PORT_MIN);
    var t := Mapped(reserved, ttl, Step(p), p, f);
    SetOnIdle(reserved, ttl, PORT_MIN, f);
    assert Apply(NewTracker(reserved, ttl), Set(f, 0, 0, 0)) == t;
    var released := Then(Start, Delete(Local(p)));
    ReleaseToIdle(reserved, ttl, Step(p), p, f);
    DeleteDoes(t, Local(p), Idle(reserved, ttl, Step(p)));
    NoOps(t);
    OneMoreOp(t, Start, t, Delete(Local(p)), Idle(reserved, ttl, Step(p)), 0);
    var n := PORTS - 1;
    var churn := Churn(released, g, reserved, Step(p), n);
    var cursor := CursorAfter(reserved, Step(p), n);
    ChurnMovesCursor(t, released, reserved, ttl, Step(p), g, n);
    AdvanceAdd(p, 1, n);
    AdvanceLap(p, 1 + n);
    assert Advance(p, 1) == Step(p);
    SetOnIdle(reserved, ttl, cursor, g);
    ops := Then(churn, Set(g, 0, 0, 0));
    OneMoreOp(t, churn, Idle(reserved, ttl, cursor), Set(g, 0, 0, 0), Mapped(reserved, ttl, Step(p), p, g),
              if cursor == reserved then 2 else 1);
  }

  lemma {:induction false} NoOps(t: Tracker)
    requires InRange(t.nextPort)
    ensures Run(t, Start) == t && Journey(t, Start) == []
  {
  }
}
