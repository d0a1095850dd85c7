/** The route chosen for each flow: what the table holds and when an entry may be swept. */
module PolicyModel {
  import opened Net
  import opened Packets
  import opened TrackerModel

  datatype Kind = Pass | Intercept | Undecided

  /** `port` is the mapped port of an intercepted IPv4 flow; it is 0 in every other entry. */
  datatype Policy = Policy(kind: Kind, port: Port, createdAt: nat)

  type Table = map<FlowKey, Policy>

  const PASS_TTL := 15 * 60 * SECOND
  const BLOCK_TTL := 5 * 60 * SECOND

  /** Whether a sweep at time `now` keeps an entry. */
  predicate Keeps(p: Policy, t: Tracker, now: nat) {
    if p.kind == Intercept && p.port == 0 then now - p.createdAt < BLOCK_TTL
    else if p.kind == Intercept then HasMapped(t, p.port)
    else now - p.createdAt < PASS_TTL
  }

  function Swept(table: Table, t: Tracker, now: nat): Table {
    map key | key in table && Keeps(table[key], t, now) :: table[key]
  }

  /** A sweep looks at one entry at a time; each look at the tracker takes the tracker's lock anew. */
  function SweepEntry(table: Table, key: FlowKey, t: Tracker, now: nat): Table {
    if key in table && !Keeps(table[key], t, now) then table - {key} else table
  }

  function SweepEach(table: Table, order: seq<FlowKey>, t: Tracker, now: nat): Table
    decreases |order|
  {
    if order == [] then table
    else SweepEntry(SweepEach(table, order[..|order| - 1], t, now), order[|order| - 1], t, now)
  }

  lemma {:induction false} SweepEachSoFar(table: Table, order: seq<FlowKey>, t: Tracker, now: nat)
    ensures SweepEach(table, order, t, now) ==
      map key | key in table && (key in order ==> Keeps(table[key], t, now)) :: table[key]
    decreases |order|
  {
    hide Keeps;
    if order != [] {
      var n := |order| - 1;
      SweepEachSoFar(table, order[..n], t, now);
      assert order == order[..n] + [order[n]];
    }
  }

  /** Going through all entries one at a time, in whatever order, sweeps the table. */
  lemma {:induction false} SweepInAnyOrder(table: Table, order: seq<FlowKey>, t: Tracker, now: nat)
    requires forall key <- table :: key in order
    ensures SweepEach(table, order, t, now) == Swept(table, t, now)
  {
    SweepEachSoFar(table, order, t, now);
  }
}

/** The policy table as the program keeps it. */
module FlowPolicy {
  import opened Net
  import opened Packets
  import opened ConnTrack
  import opened PolicyModel

  class FlowPolicies {
    var entries: Table
    const tracker: ConnTracker

    constructor (tracker: ConnTracker)
      ensures entries == map[] && this.tracker == tracker
    {
      this.entries := map[];
      this.tracker := tracker;
    }

    method Get(key: FlowKey) returns (policy: Option<Policy>)
      ensures policy.Some? <==> key in entries
      ensures policy.Some? ==> policy.value == entries[key]
    {
      policy := if key in entries then Some(entries[key]) else None;
    }

    method Set(key: FlowKey, kind: Kind, port: Port, now: nat)
      modifies this
      ensures entries == old(entries)[key := Policy(kind, port, now)]
    {
      entries := entries[key := Policy(kind, port, now)];
    }

    method Delete(key: FlowKey)
      modifies this
      ensures entries == old(entries) - {key}
    {
      entries := entries - {key};
    }

    method Sweep(now: nat)
      modifies this
      ensures entries == Swept(old(entries), tracker.Value(), now)
    {
      ghost var table := entries;
      var todo := entries.Keys;
      ghost var done: set<FlowKey> := {};
      while todo != {}
        invariant done !! todo && done + todo == table.Keys
        invariant entries == map key | key in table && !(key in done && !Keeps(table[key], tracker.Value(), now)) :: table[key]
        decreases todo
      {
        var key :| key in todo;
        todo := todo - {key};
        done := done + {key};
        var policy := entries[key];
        var keep;
        if policy.kind == Intercept && policy.port == 0 {
          keep := now - policy.createdAt < BLOCK_TTL;
        } else if policy.kind == Intercept {
          keep := tracker.HasMapped(policy.port);
        } else {
          keep := now - policy.createdAt < PASS_TTL;
        }
        if !keep {
          entries := entries - {key};
        }
      }
    }
  }
}
