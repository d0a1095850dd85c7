/** The connection tracker as the program keeps it: maps and a cursor updated in place under one lock. */
module ConnTrack {
  import opened Net
  import opened TrackerModel
  import Model = TrackerModel

  class ConnTracker {
    var entries: map<ConnKey, ConnTarget>
    var active: set<ConnKey>
    var orig: map<OrigFlow, ConnKey>
    var nextPort: Port
    const reservedPort: Port
    const ttl: nat

    ghost predicate Valid()
      reads this
    {
      InRange(nextPort)
    }

    ghost function Value(): Tracker
      reads this
    {
      Tracker(entries, active, orig, nextPort, reservedPort, ttl)
    }

    constructor (ttl: int, reservedPort: Port)
      ensures Valid() && Value() == NewTracker(reservedPort, ttl)
    {
      this.entries, this.active, this.orig := map[], {}, map[];
      this.nextPort := PORT_MIN;
      this.reservedPort := reservedPort;
      this.ttl := if ttl <= 0 then 30 else ttl;
    }

    method Set(flow: OrigFlow, ifIdx: nat, subIfIdx: nat, now: nat) returns (mapped: Option<Port>)
      requires Valid()
      modifies this
      ensures Valid()
      ensures (Value(), mapped) == SetPort(old(Value()), flow, ifIdx, subIfIdx, now)
    {
      hide Skips;
      ghost var t := Value();
      if flow in orig {
        if orig[flow] in entries {
          return Some(orig[flow].port);
        }
        orig := orig - {flow};
      }
      assert orig == t.orig - {flow};
      var attempts := 0;
      while attempts <= PORT_MAX - PORT_MIN
        invariant 0 <= attempts <= PORTS
        invariant nextPort == Advance(t.nextPort, attempts)
        invariant forall e: nat :: e < attempts ==> !Usable(t, Advance(t.nextPort, e))
        invariant Value() == t.(orig := t.orig - {flow}, nextPort := nextPort)
        decreases PORTS - attempts
      {
        var port := nextPort;
        nextPort := nextPort + 1;
        if nextPort > PORT_MAX {
          nextPort := PORT_MIN;
        }
        var key := Local(port);
        if port != reservedPort && key !in entries {
          SkipsIs(t, attempts);
          entries := entries[key := ConnTarget(flow, ifIdx, subIfIdx, now)];
          orig := orig[flow := key];
          return Some(port);
        }
        attempts := attempts + 1;
      }
      SkipsIs(t, attempts);
      AdvanceLap(t.nextPort, attempts);
      mapped := None;
    }

    method Activate(key: ConnKey)
      modifies this`active
      ensures Value() == Model.Activate(old(Value()), key)
    {
      if key in entries {
        active := active + {key};
      }
    }

    method Get(key: ConnKey) returns (target: Option<ConnTarget>)
      ensures target.Some? <==> key in entries
      ensures target.Some? ==> target.value == entries[key]
    {
      target := if key in entries then Some(entries[key]) else None;
    }

    method HasMapped(port: Port) returns (found: bool)
      ensures found == Model.HasMapped(Value(), port)
      ensures found <==> port != 0 && ConnKey([127, 0, 0, 1], port) in entries
    {
      if port == 0 {
        return false;
      }
      found := Local(port) in entries;
    }

    method Delete(key: ConnKey)
      modifies this
      ensures nextPort == old(nextPort)
      ensures Value() == Model.Delete(old(Value()), key)
    {
      active := active - {key};
      if key in entries {
        var flow := entries[key].flow;
        if flow in orig && orig[flow] == key {
          orig := orig - {flow};
        }
      }
      entries := entries - {key};
    }

    /** The body of one collector tick. The visiting order is arbitrary; the outcome does not depend on it. */
    method Collect(now: nat)
      modifies this
      ensures nextPort == old(nextPort)
      ensures Value() == Model.Collect(old(Value()), now)
    {
      hide Model.Collected, Model.Collect;
      ghost var t := Value();
      var todo := entries.Keys;
      ghost var done: set<ConnKey> := {};
      CollectAll(t, now);
      while todo != {}
        invariant done !! todo && done + todo == t.entries.Keys
        invariant Value() == Collected(t, done, now)
        decreases todo
      {
        var key :| key in todo;
        CollectedHas(t, done, key, now);
        CollectOne(t, done, key, now);
        todo := todo - {key};
        done := done + {key};
        var target := entries[key];
        if key !in active && now - target.createdAt > ttl * SECOND {
          if target.flow in orig && orig[target.flow] == key {
            orig := orig - {target.flow};
          }
          entries := entries - {key};
        }
      }
      assert done == t.entries.Keys;
    }
  }
}
