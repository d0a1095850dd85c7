/** The connection tracker as a value: a two-way table between original flows and mapped loopback
    ports, and what each operation makes of it. */
module TrackerModel {
  import opened Net

  const PORT_MIN: Port := 32768
  const PORT_MAX: Port := 60999
  const PORTS := PORT_MAX - PORT_MIN + 1

  datatype ConnKey = ConnKey(ip: Ip4, port: Port)
  datatype OrigFlow = OrigFlow(srcIP: Ip4, srcPort: Port, dstIP: Ip4, dstPort: Port)
  datatype ConnTarget = ConnTarget(flow: OrigFlow, ifIdx: nat, subIfIdx: nat, createdAt: nat)

  /** The value of a tracker: its tables, its port cursor and its two settings. */
  datatype Tracker = Tracker(
    entries: map<ConnKey, ConnTarget>,
    active: set<ConnKey>,
    orig: map<OrigFlow, ConnKey>,
    nextPort: Port,
    reserved: Port,
    ttl: nat)

  function Local(port: Port): ConnKey {
    ConnKey(LOOPBACK, port)
  }

  predicate InRange(port: int) {
    PORT_MIN <= port <= PORT_MAX
  }

  function NewTracker(reserved: Port, ttl: int): Tracker {
    Tracker(map[], {}, map[], PORT_MIN, reserved, if ttl <= 0 then 30 else ttl)
  }

  // ---------------------------------------------------------------- the port cursor

  function Step(port: Port): (r: Port)
    requires InRange(port)
    ensures InRange(r)
  {
    if port == PORT_MAX then PORT_MIN else port + 1
  }

  /** The cursor after `d` single steps from `port`. */
  function Advance(port: Port, d: nat): (r: Port)
    requires InRange(port)
    ensures InRange(r)
    decreases d, port
  {
    if d == 0 then port else Step(Advance(port, d - 1))
  }

  /** Within one lap, stepping is adding, less the size of the range once the end is passed. */
  lemma {:induction false} AdvanceWithinLap(port: Port, d: nat)
    requires InRange(port) && d <= PORTS
    ensures Advance(port, d) == if port + d <= PORT_MAX then port + d else port + d - PORTS
    decreases d
  {
    if d > 0 {
      AdvanceWithinLap(port, d - 1);
    }
  }

  lemma {:induction false} AdvanceAdd(port: Port, d: nat, e: nat)
    requires InRange(port)
    ensures Advance(Advance(port, d), e) == Advance(port, d + e)
    decreases e
  {
    if e > 0 {
      AdvanceAdd(port, d, e - 1);
    }
  }

  lemma {:induction false} AdvanceLap(port: Port, lap: nat)
    requires InRange(port) && lap == PORTS
    ensures Advance(port, lap) == port
  {
    AdvanceWithinLap(port, lap);
  }

  /** Two visits of one port are at least a lap apart. */
  lemma {:induction false} SamePortSameLap(port: Port, i: nat, j: nat)
    requires InRange(port) && i < j
    requires Advance(port, i) == Advance(port, j)
    ensures j - i >= PORTS
  {
    AdvanceAdd(port, i, j - i);
    if j - i < PORTS {
      AdvanceWithinLap(Advance(port, i), j - i);
    }
  }

  predicate Usable(t: Tracker, port: Port) {
    port != t.reserved && Local(port) !in t.entries
  }

  /** How many ports the allocation loop skips from `port` on before a usable one, `left` at most. */
  function Skips(t: Tracker, port: Port, left: nat): (d: nat)
    requires InRange(port)
    ensures d <= left
    ensures d < left ==> Usable(t, Advance(port, d))
    ensures forall e: nat :: e < d ==> !Usable(t, Advance(port, e))
    decreases left, port
  {
    if left == 0 || Usable(t, port) then 0
    else
      var rest := Skips(t, Step(port), left - 1);
      assert forall e: nat :: e < rest + 1 ==> !Usable(t, Advance(port, e)) by {
        forall e: nat | e < rest + 1 ensures !Usable(t, Advance(port, e)) {
          if e > 0 { AdvanceAdd(port, 1, e - 1); }
        }
      }
      AdvanceAdd(port, 1, rest);
      rest + 1
  }

  lemma {:induction false} SkipsIs(t: Tracker, d: nat)
    requires InRange(t.nextPort) && d <= PORTS
    requires forall e: nat :: e < d ==> !Usable(t, Advance(t.nextPort, e))
    requires d < PORTS ==> Usable(t, Advance(t.nextPort, d))
    ensures Skips(t, t.nextPort, PORTS) == d
  {
    hide Usable, Advance;
    var skips := Skips(t, t.nextPort, PORTS);
  }

  // ---------------------------------------------------------------- what each operation does

  /** `Set`: the port already mapped for `flow`, or the first usable one from the cursor on. */
  function SetPort(t: Tracker, flow: OrigFlow, ifIdx: nat, subIfIdx: nat, now: nat): (Tracker, Option<Port>)
    requires InRange(t.nextPort)
  {
    if flow in t.orig && t.orig[flow] in t.entries then (t, Some(t.orig[flow].port))
    else
      var cleared := t.(orig := t.orig - {flow});
      var d := Skips(t, t.nextPort, PORTS);
      if d == PORTS then (cleared, None)
      else
        var port := Advance(t.nextPort, d);
        var key := Local(port);
        (cleared.(entries := t.entries[key := ConnTarget(flow, ifIdx, subIfIdx, now)],
                  orig := cleared.orig[flow := key],
                  nextPort := Step(port)),
         Some(port))
  }

  function Activate(t: Tracker, key: ConnKey): Tracker {
    if key in t.entries then t.(active := t.active + {key}) else t
  }

  predicate HasMapped(t: Tracker, port: Port) {
    port != 0 && Local(port) in t.entries
  }

  /** Forgets `key`, and the flow index entry of its flow when that entry still points back at `key`. */
  function Delete(t: Tracker, key: ConnKey): Tracker {
    t.(entries := t.entries - {key},
       active := t.active - {key},
       orig := if key in t.entries then Unlink(t.orig, key, t.entries[key].flow) else t.orig)
  }

  function Unlink(orig: map<OrigFlow, ConnKey>, key: ConnKey, flow: OrigFlow): map<OrigFlow, ConnKey> {
    if flow in orig && orig[flow] == key then orig - {flow} else orig
  }

  predicate Expired(t: Tracker, key: ConnKey, now: nat) {
    && key in t.entries
    && key !in t.active
    && now - t.entries[key].createdAt > t.ttl * SECOND
  }

  /** The collector having come to the keys `done`. */
  function Collected(t: Tracker, done: set<ConnKey>, now: nat): Tracker {
    t.(entries := map key | key in t.entries && !(key in done && Expired(t, key, now)) :: t.entries[key],
       orig := map flow | flow in t.orig && !(t.orig[flow] in done && Expired(t, t.orig[flow], now) &&
                                              t.entries[t.orig[flow]].flow == flow) :: t.orig[flow])
  }

  lemma {:induction false} CollectOne(t: Tracker, done: set<ConnKey>, key: ConnKey, now: nat)
    requires key in t.entries && key !in done
    ensures Collected(t, done + {key}, now) ==
      var c := Collected(t, done, now);
      if Expired(t, key, now) then c.(entries := c.entries - {key}, orig := Unlink(c.orig, key, t.entries[key].flow)) else c
  {
    hide Expired;
    var c, d := Collected(t, done, now), Collected(t, done + {key}, now);
    if Expired(t, key, now) {
      assert d.entries == c.entries - {key};
      assert d.orig == Unlink(c.orig, key, t.entries[key].flow);
    } else {
      assert d.entries == c.entries;
      assert d.orig == c.orig;
    }
  }

  lemma {:induction false} CollectedHas(t: Tracker, done: set<ConnKey>, key: ConnKey, now: nat)
    requires key in t.entries && key !in done
    ensures var c := Collected(t, done, now);
      key in c.entries && c.entries[key] == t.entries[key] && c.active == t.active && c.ttl == t.ttl && c.nextPort == t.nextPort
  {
  }

  lemma {:induction false} CollectAll(t: Tracker, now: nat)
    ensures Collected(t, {}, now) == t && Collected(t, t.entries.Keys, now) == Collect(t, now)
    ensures Collect(t, now).nextPort == t.nextPort
  {
    hide Expired;
    assert Collected(t, {}, now).entries == t.entries && Collected(t, {}, now).orig == t.orig;
    assert Collected(t, t.entries.Keys, now).entries == Collect(t, now).entries;
    assert Collected(t, t.entries.Keys, now).orig == Collect(t, now).orig by { CollectedOrig(t, now); }
  }

  lemma {:induction false} CollectedOrig(t: Tracker, now: nat)
    ensures Collected(t, t.entries.Keys, now).orig == Collect(t, now).orig
  {
    forall flow <- t.orig ensures Expired(t, t.orig[flow], now) ==> t.orig[flow] in t.entries {}
  }

  /** One round of the garbage collector. */
  function Collect(t: Tracker, now: nat): Tracker {
    t.(entries := map key | key in t.entries && !Expired(t, key, now) :: t.entries[key],
       orig := map flow | flow in t.orig &&
                          !(Expired(t, t.orig[flow], now) && t.entries[t.orig[flow]].flow == flow) :: t.orig[flow])
  }
}
