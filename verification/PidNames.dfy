/** The cache of process names by process id, and what it lets be seen of the names it caches. */
module PidNames {
  import opened Net
  import opened Histories

  type U32 = x: int | 0 <= x < 0x1_0000_0000

  const TTL := 2 * SECOND

  datatype Entry = Entry(name: string, checkedAt: nat)

  type Names = map<U32, Entry>

  predicate Fresh(c: Names, pid: U32, now: nat) {
    pid in c && now - c[pid].checkedAt < TTL
  }

  /** The name a lookup gives, if asking the system now would give `found`. */
  function NameOf(c: Names, pid: U32, now: nat, found: string): string {
    if pid == 0 then "" else if Fresh(c, pid, now) then c[pid].name else found
  }

  function AfterLook(c: Names, pid: U32, now: nat, found: string): Names {
    if pid == 0 || Fresh(c, pid, now) then c else c[pid := Entry(found, now)]
  }

  function Swept(c: Names, now: nat): Names {
    map pid | pid in c && Fresh(c, pid, now) :: c[pid]
  }

  class PidNameCache {
    var entries: Names

    constructor ()
      ensures entries == map[]
    {
      entries := map[];
    }

    method Get(pid: U32, now: nat, resolve: U32 -> string) returns (name: string)
      modifies this
      ensures name == NameOf(old(entries), pid, now, resolve(pid))
      ensures entries == AfterLook(old(entries), pid, now, resolve(pid))
    {
      if pid == 0 {
        return "";
      }
      if pid in entries {
        var e := entries[pid];
        if now - e.checkedAt < TTL {
          return e.name;
        }
      }
      name := resolve(pid);
      entries := entries[pid := Entry(name, now)];
    }

    method Sweep(now: nat)
      modifies this
      ensures entries == Swept(old(entries), now)
    {
      ghost var was := entries;
      var todo := entries.Keys;
      ghost var done: set<U32> := {};
      while todo != {}
        invariant done !! todo && done + todo == was.Keys
        invariant entries == map pid | pid in was && (pid in done ==> Fresh(was, pid, now)) :: was[pid]
        decreases todo
      {
        var pid :| pid in todo;
        todo := todo - {pid};
        done := done + {pid};
        if now - entries[pid].checkedAt >= TTL {
          entries := entries - {pid};
        }
      }
    }
  }

  // ---------------------------------------------------------------- interleaved refreshes

  /** Where a refresh stands in a lookup that the cache could not answer. */
  datatype Phase = Free | Asking(pid: U32) | Heard(pid: U32, name: string)

  /** A refresh under way, with the one clock reading it uses throughout. */
  datatype Refresh = Refresh(now: nat, phase: Phase)

  /** A name given out to a refresh. */
  datatype Given = Given(pid: U32, name: string, now: nat)

  datatype State = State(cache: Names, clock: nat, open: map<nat, Refresh>, given: seq<Given>)

  /** The cache is read under its lock and written under its lock; in between the system is asked, and
      other refreshes go on. */
  datatype Step =
    | Tick(elapsed: nat)
    | Begin(id: nat)                      // reads the clock
    | Sweep(id: nat)
    | Look(id: nat, pid: U32)             // looks in the cache
    | Ask(id: nat, found: string)         // asks the system, which answers `found`
    | Store(id: nat)                      // puts the answer into the cache
    | End(id: nat)

  predicate IsFree(s: State, id: nat) {
    id in s.open && s.open[id].phase == Free
  }

  function Next(s: State, step: Step): State {
    match step
    case Tick(elapsed) => s.(clock := s.clock + elapsed)
    case Begin(id) => if id in s.open then s else s.(open := s.open[id := Refresh(s.clock, Free)])
    case Sweep(id) => if IsFree(s, id) then s.(cache := Swept(s.cache, s.open[id].now)) else s
    case Look(id, pid) => if IsFree(s, id) then Looked(s, id, pid) else s
    case Ask(id, found) =>
      if id in s.open && s.open[id].phase.Asking? then
        s.(open := s.open[id := s.open[id].(phase := Heard(s.open[id].phase.pid, found))])
      else s
    case Store(id) => if id in s.open && s.open[id].phase.Heard? then Stored(s, id) else s
    case End(id) => if IsFree(s, id) then s.(open := s.open - {id}) else s
  }

  function Looked(s: State, id: nat, pid: U32): State
    requires id in s.open
  {
    var now := s.open[id].now;
    if pid == 0 then s.(given := s.given + [Given(0, "", now)])
    else if Fresh(s.cache, pid, now) then s.(given := s.given + [Given(pid, s.cache[pid].name, now)])
    else s.(open := s.open[id := s.open[id].(phase := Asking(pid))])
  }

  function Stored(s: State, id: nat): State
    requires id in s.open && s.open[id].phase.Heard?
  {
    var refresh := s.open[id];
    State(s.cache[refresh.phase.pid := Entry(refresh.phase.name, refresh.now)], s.clock,
          s.open[id := refresh.(phase := Free)], s.given + [Given(refresh.phase.pid, refresh.phase.name, refresh.now)])
  }

  function Run(s: State, steps: History<Step>): State
    decreases steps
  {
    match steps
    case Start => s
    case Then(past, step) => Next(Run(s, past), step)
  }

  /** A whole lookup of a refresh. */
  function Lookup(before: History<Step>, id: nat, pid: U32, found: string): History<Step> {
    Then(Then(Then(before, Look(id, pid)), Ask(id, found)), Store(id))
  }

  /** With nobody else about, the three halves of a lookup are the lookup of the cache. */
  lemma {:induction false} LookupIsGet(s: State, steps: History<Step>, id: nat, pid: U32, found: string)
    requires IsFree(Run(s, steps), id)
    ensures var q, r := Run(s, steps), Run(s, Lookup(steps, id, pid, found));
      var now := q.open[id].now;
      && r.cache == AfterLook(q.cache, pid, now, found)
      && r.given == q.given + [Given(pid, NameOf(q.cache, pid, now, found), now)]
      && r.open == q.open && r.clock == q.clock
  {
    var q := Run(s, steps);
    var one, two := Then(steps, Look(id, pid)), Then(Then(steps, Look(id, pid)), Ask(id, found));
    assert Run(s, one) == Looked(q, id, pid);
    assert Run(s, two) == Next(Run(s, one), Ask(id, found));
    assert Run(s, Lookup(steps, id, pid, found)) == Next(Run(s, two), Store(id));
    assert q.open[id := q.open[id]] == q.open;
  }

  /** A cached name is given out for two seconds from the reading of the refresh that asked for it, be it empty or
      not; and only then is the system asked again. */
  lemma {:induction false} LookAsksIff(s: State, id: nat, pid: U32)
    requires IsFree(s, id)
    ensures var r, young := Next(s, Look(id, pid)), pid in s.cache && s.open[id].now < s.cache[pid].checkedAt + 2_000_000_000;
      if pid == 0 then r == s.(given := s.given + [Given(0, "", s.open[id].now)])
      else if young then r == s.(given := s.given + [Given(pid, s.cache[pid].name, s.open[id].now)])
      else r == s.(open := r.open) && r.open[id] == Refresh(s.open[id].now, Asking(pid))
  {
  }

  /** A sweep leaves exactly the names asked for less than two seconds before. */
  lemma {:induction false} SweepLeavesIff(s: State, id: nat, pid: U32)
    requires IsFree(s, id)
    ensures var r := Next(s, Sweep(id));
      && (pid in r.cache <==> pid in s.cache && s.open[id].now < s.cache[pid].checkedAt + 2_000_000_000)
      && (pid in r.cache ==> r.cache[pid] == s.cache[pid])
  {
  }

  // ---------------------------------------------------------------- how old a name can be

  /** At some moment of the run, the clock showing `at`, the system was asked for `pid` and said `name`. */
  predicate Asked(s: State, steps: History<Step>, pid: U32, name: string, at: nat)
    decreases steps
  {
    steps.Then? &&
    (|| Asked(s, steps.past, pid, name, at)
     || (&& steps.last.Ask? && steps.last.found == name && Run(s, steps.past).clock == at
         && steps.last.id in Run(s, steps.past).open && Run(s, steps.past).open[steps.last.id].phase == Asking(pid)))
  }

  /** The system said so at or after time `since`. */
  ghost predicate SaidSince(s: State, steps: History<Step>, pid: U32, name: string, since: int) {
    exists at: nat :: at >= since && Asked(s, steps, pid, name, at)
  }

  ghost predicate Recent(s: State, steps: History<Step>, g: Given) {
    if g.pid == 0 then g.name == "" else SaidSince(s, steps, g.pid, g.name, g.now - 2_000_000_000 + 1)
  }

  ghost predicate Truthful(s: State, steps: History<Step>, r: State) {
    && (forall pid <- r.cache :: SaidSince(s, steps, pid, r.cache[pid].name, r.cache[pid].checkedAt))
    && (forall id <- r.open :: r.open[id].now <= r.clock &&
          (r.open[id].phase != Free ==> r.open[id].phase.pid != 0) &&
          (r.open[id].phase.Heard? ==>
             SaidSince(s, steps, r.open[id].phase.pid, r.open[id].phase.name, r.open[id].now)))
    && (forall g <- r.given :: Recent(s, steps, g))
  }

  lemma {:induction false} AskedMore(s: State, steps: History<Step>, step: Step)
    ensures forall pid: U32, name: string, since: int ::
      SaidSince(s, steps, pid, name, since) ==> SaidSince(s, Then(steps, step), pid, name, since)
  {
    forall pid: U32, name: string, since: int | SaidSince(s, steps, pid, name, since)
      ensures SaidSince(s, Then(steps, step), pid, name, since)
    {
      var at: nat :| at >= since && Asked(s, steps, pid, name, at);
      assert Asked(s, Then(steps, step), pid, name, at);
    }
  }

  lemma {:induction false} AskedNow(s: State, steps: History<Step>, id: nat, found: string)
    requires id in Run(s, steps).open && Run(s, steps).open[id].phase.Asking? && Run(s, steps).open[id].now <= Run(s, steps).clock
    ensures SaidSince(s, Then(steps, Ask(id, found)), Run(s, steps).open[id].phase.pid, found, Run(s, steps).open[id].now)
  {
    assert Asked(s, Then(steps, Ask(id, found)), Run(s, steps).open[id].phase.pid, found, Run(s, steps).clock);
  }

  lemma {:induction false} SaidEarlier(s: State, steps: History<Step>, pid: U32, name: string, since: int, earlier: int)
    requires SaidSince(s, steps, pid, name, since) && earlier <= since
    ensures SaidSince(s, steps, pid, name, earlier)
  {
  }

  lemma {:induction false} LookStaysTruthful(s: State, steps: History<Step>, q: State, id: nat, pid: U32)
    requires Truthful(s, steps, q) && IsFree(q, id)
    ensures Truthful(s, steps, Looked(q, id, pid))
  {
    hide SaidSince;
    if pid != 0 && Fresh(q.cache, pid, q.open[id].now) {
      SaidEarlier(s, steps, pid, q.cache[pid].name, q.cache[pid].checkedAt, q.open[id].now - TTL + 1);
    }
  }

  lemma {:induction false} StoreStaysTruthful(s: State, steps: History<Step>, q: State, id: nat)
    requires Truthful(s, steps, q) && id in q.open && q.open[id].phase.Heard?
    ensures Truthful(s, steps, Stored(q, id))
  {
    hide SaidSince;
    var refresh := q.open[id];
    SaidEarlier(s, steps, refresh.phase.pid, refresh.phase.name, refresh.now, refresh.now - TTL + 1);
  }

  lemma {:induction false} AskStaysTruthful(s: State, steps: History<Step>, q: State, id: nat, found: string)
    requires Truthful(s, steps, q) && id in q.open && q.open[id].phase.Asking?
    requires SaidSince(s, steps, q.open[id].phase.pid, found, q.open[id].now)
    ensures Truthful(s, steps, Next(q, Ask(id, found)))
  {
    hide SaidSince;
  }

  lemma {:induction false} OthersStayTruthful(s: State, steps: History<Step>, q: State, step: Step)
    requires Truthful(s, steps, q) && (step.Tick? || step.Begin? || step.Sweep? || step.End?)
    ensures Truthful(s, steps, Next(q, step))
  {
    hide SaidSince;
  }

  lemma {:induction false} MoreIsTruthful(s: State, steps: History<Step>, step: Step, q: State)
    requires Truthful(s, steps, q)
    ensures Truthful(s, Then(steps, step), q)
  {
    hide SaidSince;
    AskedMore(s, steps, step);
  }

  lemma {:induction false} StepStaysTruthful(s: State, steps: History<Step>, step: Step)
    requires Truthful(s, steps, Run(s, steps))
    ensures Truthful(s, Then(steps, step), Next(Run(s, steps), step))
  {
    hide Truthful, SaidSince, Looked, Stored, Run;
    var q, more := Run(s, steps), Then(steps, step);
    MoreIsTruthful(s, steps, step, q);
    if step.Look? {
      if IsFree(q, step.id) {
        LookStaysTruthful(s, more, q, step.id, step.pid);
      }
    } else if step.Ask? {
      if step.id in q.open && q.open[step.id].phase.Asking? {
        ReadingsArePast(s, more, q, step.id);
        AskedNow(s, steps, step.id, step.found);
        AskStaysTruthful(s, more, q, step.id, step.found);
      }
    } else if step.Store? {
      if step.id in q.open && q.open[step.id].phase.Heard? {
        StoreStaysTruthful(s, more, q, step.id);
      }
    } else {
      OthersStayTruthful(s, more, q, step);
    }
  }

  lemma {:induction false} ReadingsArePast(s: State, steps: History<Step>, q: State, id: nat)
    requires Truthful(s, steps, q) && id in q.open
    ensures q.open[id].now <= q.clock
  {
  }

  /** However refreshes interleave: every name given to one is what the system said of that very process id,
      when asked less than the time to live before the refresh read the clock, or later. */
  lemma {:induction false} NamesAreRecent(s: State, steps: History<Step>)
    requires s.cache == map[] && s.open == map[] && s.given == []
    ensures Truthful(s, steps, Run(s, steps))
    decreases steps
  {
    hide Next, Truthful;
    if steps == Start {
      NothingGiven(s);
    } else {
      NamesAreRecent(s, steps.past);
      StepStaysTruthful(s, steps.past, steps.last);
    }
  }

  lemma {:induction false} NothingGiven(s: State)
    requires s.cache == map[] && s.open == map[] && s.given == []
    ensures Truthful(s, Start, s)
  {
  }

  // ---------------------------------------------------------------- what a sweep lets be seen

  predicate IsSweep(step: Step) {
    step.Sweep?
  }

  function WithoutSweeps(steps: History<Step>): History<Step> {
    match steps
    case Start => Start
    case Then(past, step) => if IsSweep(step) then WithoutSweeps(past) else Then(WithoutSweeps(past), step)
  }

  /** No refresh under way has read the clock before refresh `id` did. */
  ghost predicate Eldest(s: State, id: nat)
    requires id in s.open
  {
    forall other <- s.open :: s.open[id].now <= s.open[other].now
  }

  /** Only a refresh with the earliest clock reading of all under way sweeps. */
  ghost predicate OnlyEldestSweeps(s: State, steps: History<Step>)
    decreases steps
  {
    steps.Then? ==>
      && OnlyEldestSweeps(s, steps.past)
      && (steps.last.Sweep? && steps.last.id in Run(s, steps.past).open ==> Eldest(Run(s, steps.past), steps.last.id))
  }

  /** A time at which some refresh, now under way or yet to begin, may look. */
  ghost predicate MayLookAt(s: State, t: nat) {
    t >= s.clock || exists id <- s.open :: s.open[id].now <= t
  }

  /** Two states that no lookup can tell apart, now or later. */
  ghost predicate Alike(a: State, b: State) {
    && b == a.(cache := b.cache)
    && (forall id <- a.open :: a.open[id].now <= a.clock)
    && forall pid: U32, t: nat :: MayLookAt(a, t) && (Fresh(a.cache, pid, t) || Fresh(b.cache, pid, t)) ==>
         pid in a.cache && pid in b.cache && a.cache[pid] == b.cache[pid]
  }

  lemma {:induction false} SameFreshness(a: State, b: State, pid: U32, t: nat)
    requires Alike(a, b) && MayLookAt(a, t)
    ensures Fresh(a.cache, pid, t) <==> Fresh(b.cache, pid, t)
    ensures Fresh(a.cache, pid, t) ==> a.cache[pid] == b.cache[pid]
  {
  }

  lemma {:induction false} LookAlike(a: State, b: State, id: nat, pid: U32)
    requires Alike(a, b) && IsFree(a, id)
    ensures Alike(Looked(a, id, pid), Looked(b, id, pid))
  {
    hide Fresh;
    assert MayLookAt(a, a.open[id].now);
    SameFreshness(a, b, pid, a.open[id].now);
    SameTimes(a, Looked(a, id, pid));
  }

  /** The same refreshes with the same readings look at the same times. */
  lemma {:induction false} SameTimes(a: State, r: State)
    requires r.clock == a.clock && r.open.Keys == a.open.Keys
    requires forall id <- a.open :: r.open[id].now == a.open[id].now
    ensures forall t: nat :: MayLookAt(r, t) ==> MayLookAt(a, t)
  {
    forall t: nat | MayLookAt(r, t) ensures MayLookAt(a, t) {
      if t < r.clock {
        var id :| id in r.open && r.open[id].now <= t;
        assert id in a.open && a.open[id].now <= t;
      }
    }
  }

  lemma {:induction false} StoreAlike(a: State, b: State, id: nat)
    requires Alike(a, b) && id in a.open && a.open[id].phase.Heard?
    ensures Alike(Stored(a, id), Stored(b, id))
  {
    SameTimes(a, Stored(a, id));
  }

  lemma {:induction false} ClockAlike(a: State, b: State, step: Step)
    requires Alike(a, b) && (step.Tick? || step.Begin? || step.End? || step.Ask?)
    ensures Alike(Next(a, step), Next(b, step))
  {
    hide Fresh;
    var r := Next(a, step);
    forall t: nat | MayLookAt(r, t) ensures MayLookAt(a, t) {
      if t < r.clock {
        var id :| id in r.open && r.open[id].now <= t;
        if id in a.open {
          assert a.open[id].now <= t;
        }
      }
    }
  }

  lemma {:induction false} SweepingAlike(a: State, b: State, id: nat)
    requires Alike(a, b) && (id in a.open ==> Eldest(a, id))
    ensures Alike(Next(a, Sweep(id)), b)
  {
    var r := Next(a, Sweep(id));
    if IsFree(a, id) {
      SameTimes(a, r);
      forall t: nat | MayLookAt(a, t) ensures a.open[id].now <= t {
        if t < a.clock {
          var other :| other in a.open && a.open[other].now <= t;
          assert a.open[id].now <= a.open[other].now;
        }
      }
      forall pid: U32, t: nat | MayLookAt(a, t) ensures Fresh(r.cache, pid, t) <==> Fresh(a.cache, pid, t) {}
    }
  }

  /** As long as only a refresh with the earliest reading sweeps: whenever it does, the names given out are
      those of the same run without any sweep. */
  lemma {:induction false} SweepsAreInvisible(s: State, steps: History<Step>)
    requires s.open == map[] && OnlyEldestSweeps(s, steps)
    ensures Alike(Run(s, steps), Run(s, WithoutSweeps(steps)))
    decreases steps
  {
    hide Next, Alike, Eldest, Looked, Stored;
    if steps == Start {
      AlikeItself(s);
    } else {
      SweepsAreInvisible(s, steps.past);
      StepAlike(Run(s, steps.past), Run(s, WithoutSweeps(steps.past)), steps.last);
    }
  }

  lemma {:induction false} AlikeItself(s: State)
    requires s.open == map[]
    ensures Alike(s, s)
  {
  }

  lemma {:induction false} StepAlike(a: State, b: State, step: Step)
    requires Alike(a, b) && (step.Sweep? && step.id in a.open ==> Eldest(a, step.id))
    ensures Alike(Next(a, step), if IsSweep(step) then b else Next(b, step))
  {
    hide Looked, Stored, Fresh, Eldest, Swept;
    if step.Sweep? {
      SweepingAlike(a, b, step.id);
    } else if step.Look? {
      if IsFree(a, step.id) {
        LookAlike(a, b, step.id, step.pid);
      }
    } else if step.Store? {
      if step.id in a.open && a.open[step.id].phase.Heard? {
        StoreAlike(a, b, step.id);
      }
    } else {
      ClockAlike(a, b, step);
    }
  }

  /** Exactly when the sweep of one refresh, `sweeper`, shows to the lookup of another: the entry is out of date
      by the reading of the one and not by that of the other, and the system has a new answer. */
  lemma {:induction false} SweepShowsIff(c: Names, sweeper: nat, reader: nat, pid: U32, found: string)
    ensures NameOf(Swept(c, sweeper), pid, reader, found) != NameOf(c, pid, reader, found)
       <==> pid != 0 && Fresh(c, pid, reader) && !Fresh(c, pid, sweeper) && c[pid].name != found
  {
  }

  function OldName(): History<Step> {
    Then(Lookup(Then(Start, Begin(0)), 0, 7, "old"), End(0))
  }

  /** A name is cached; just before it is out of date one refresh begins, and another one just then. */
  function TwoBegin(): History<Step> {
    Then(Then(Then(Then(OldName(), Tick(TTL - 1)), Begin(1)), Tick(1)), Begin(2))
  }

  /** Two refreshes under way at once, the later one sweeping: the earlier one is given another name than
      without the sweep. */
  lemma {:induction false} LaterSweepShows() returns (swept: History<Step>)
    ensures var s := State(map[], 0, map[], []);
      Run(s, swept).given != Run(s, WithoutSweeps(swept)).given
  {
    hide TwoBegin, WithoutSweeps, Run;
    var s := State(map[], 0, map[], []);
    var before := Then(TwoBegin(), Sweep(2));
    swept := Lookup(before, 1, 7, "new");
    AfterTwoBegin(s);
    AfterSweep(s);
    LookupIsGet(s, TwoBegin(), 1, 7, "new");
    LookupIsGet(s, before, 1, 7, "new");
    LookupStays(before, 1, 7, "new");
    NoSweepYet();
    assert Run(s, swept).given[1].name == "new" && Run(s, WithoutSweeps(swept)).given[1].name == "old";
  }

  lemma {:induction false} AfterSweep(s: State)
    requires s == State(map[], 0, map[], [])
    ensures Run(s, Then(TwoBegin(), Sweep(2))) == Run(s, TwoBegin()).(cache := map[])
    ensures WithoutSweeps(Then(TwoBegin(), Sweep(2))) == WithoutSweeps(TwoBegin())
  {
    hide TwoBegin;
    AfterTwoBegin(s);
    assert Swept(Run(s, TwoBegin()).cache, TTL) == map[];
  }

  lemma {:induction false} LookupStays(before: History<Step>, id: nat, pid: U32, found: string)
    ensures WithoutSweeps(Lookup(before, id, pid, found)) == Lookup(WithoutSweeps(before), id, pid, found)
  {
    var one, two := Then(before, Look(id, pid)), Then(Then(before, Look(id, pid)), Ask(id, found));
    assert WithoutSweeps(one) == Then(WithoutSweeps(before), Look(id, pid));
    assert WithoutSweeps(two) == Then(WithoutSweeps(one), Ask(id, found));
  }

  lemma {:induction false} NoSweepYet()
    ensures WithoutSweeps(TwoBegin()) == TwoBegin()
  {
    var a, b := Then(OldName(), Tick(TTL - 1)), Then(Then(OldName(), Tick(TTL - 1)), Begin(1));
    LookupStays(Then(Start, Begin(0)), 0, 7, "old");
    assert WithoutSweeps(Then(Start, Begin(0))) == Then(Start, Begin(0));
    assert WithoutSweeps(OldName()) == OldName();
    assert WithoutSweeps(a) == a;
    assert WithoutSweeps(b) == b;
    assert WithoutSweeps(Then(b, Tick(1))) == Then(b, Tick(1));
  }

  lemma {:induction false} AfterTwoBegin(s: State)
    requires s == State(map[], 0, map[], [])
    ensures Run(s, TwoBegin()) == State(map[7 := Entry("old", 0)], TTL, map[1 := Refresh(TTL - 1, Free), 2 := Refresh(TTL, Free)],
                                  [Given(7, "old", 0)])
  {
    var first := OldName();
    assert Run(s, Then(Start, Begin(0))) == State(map[], 0, map[0 := Refresh(0, Free)], []);
    LookupIsGet(s, Then(Start, Begin(0)), 0, 7, "old");
    var r := State(map[7 := Entry("old", 0)], 0, map[], [Given(7, "old", 0)]);
    assert map[0 := Refresh(0, Free)] - {0} == map[];
    assert Run(s, first) == r;
    assert Run(s, Then(first, Tick(TTL - 1))) == r.(clock := TTL - 1);
    assert Run(s, Then(Then(first, Tick(TTL - 1)), Begin(1))) == r.(clock := TTL - 1, open := map[1 := Refresh(TTL - 1, Free)]);
    assert Run(s, Then(Then(Then(first, Tick(TTL - 1)), Begin(1)), Tick(1))) == r.(clock := TTL, open := map[1 := Refresh(TTL - 1, Free)]);
    assert map[1 := Refresh(TTL - 1, Free)][2 := Refresh(TTL, Free)] == map[1 := Refresh(TTL - 1, Free), 2 := Refresh(TTL, Free)];
  }
}
