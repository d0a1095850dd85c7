/** The dialer of the upstream proxy, built once per configuration and cached under a key. A call looks
    in the cache under the read lock and, if that fails, again under the write lock before it builds;
    between the two the configuration may change. */
module UpstreamCache {
  import opened Net
  import opened Histories

  datatype Conf = Conf(pType: string, pAddr: string, username: string, password: string)

  /** What dials: a proxy protocol with the address and credentials it was built with, or a dialer
      installed from outside. */
  datatype Dialer =
    | Http(addr: string, username: string, password: string)
    | Socks(addr: string, auth: Option<(string, string)>)
    | Custom(id: nat)

  const CUSTOM := "custom"
  const SEP := "://"
  const NUL := "\0"

  function Key(c: Conf): (key: string) {
    c.pType + SEP + c.pAddr + NUL + c.username + NUL + c.password
  }

  /** What a dialer that suits a configuration is: HTTP CONNECT for proxy type "http" and SOCKS for any other, at
      the configured address, and with the configured credentials, which a SOCKS dialer has only for a user name. */
  predicate Suits(d: Dialer, c: Conf) {
    match d
    case Http(addr, username, password) =>
      c.pType == "http" && addr == c.pAddr && username == c.username && password == c.password
    case Socks(addr, auth) =>
      && c.pType != "http" && addr == c.pAddr
      && (auth.None? <==> c.username == "")
      && (auth.Some? ==> auth.value.0 == c.username && auth.value.1 == c.password)
    case Custom(_) => false
  }

  function Build(c: Conf): (d: Dialer)
    ensures Suits(d, c)
  {
    if c.pType == "http" then Http(c.pAddr, c.username, c.password)
    else if c.username != "" then Socks(c.pAddr, Some((c.username, c.password)))
    else Socks(c.pAddr, None)
  }

  datatype Cache = Cache(conf: Conf, cached: Option<Dialer>, cachedKey: string)

  function Updated(conf: Conf): Cache {
    Cache(conf, None, "")
  }

  function Installed(c: Cache, d: Option<Dialer>): Cache {
    c.(cached := d, cachedKey := CUSTOM)
  }

  /** What the cache offers a call that wants a dialer under `key`. */
  function Offer(c: Cache, key: string): Option<Dialer> {
    if c.cachedKey == CUSTOM && c.cached.Some? then c.cached
    else if c.cached.Some? && c.cachedKey == key then c.cached
    else None
  }

  /** The second half of a call that read configuration `asked`; building succeeds if it `works`. */
  function Settle(c: Cache, asked: Conf, works: bool): (Cache, Option<Dialer>) {
    if Offer(c, Key(asked)).Some? then (c, Offer(c, Key(asked)))
    else if works then (c.(cached := Some(Build(asked)), cachedKey := Key(asked)), Some(Build(asked)))
    else (c, None)
  }

  class UpstreamDialer {
    var pType: string
    var pAddr: string
    var username: string
    var password: string
    var cached: Option<Dialer>
    var cachedKey: string

    ghost function Value(): Cache
      reads this
    {
      Cache(Conf(pType, pAddr, username, password), cached, cachedKey)
    }

    constructor (pType: string, pAddr: string, username: string, password: string)
      ensures Value() == Updated(Conf(pType, pAddr, username, password))
    {
      this.pType, this.pAddr, this.username, this.password := pType, pAddr, username, password;
      cached, cachedKey := None, "";
    }

    method Update(pType: string, pAddr: string, username: string, password: string)
      modifies this
      ensures Value() == Updated(Conf(pType, pAddr, username, password))
    {
      this.pType, this.pAddr, this.username, this.password := pType, pAddr, username, password;
      cached, cachedKey := None, "";
    }

    method SetDialer(d: Option<Dialer>)
      modifies this
      ensures Value() == Installed(old(Value()), d)
    {
      cached, cachedKey := d, CUSTOM;
    }

    /** Under the read lock: a cached dialer, or else a copy of the configuration to build one from. */
    method Look() returns (d: Option<Dialer>, asked: Conf)
      ensures asked == Value().conf && d == Offer(Value(), Key(asked))
    {
      asked := Conf(pType, pAddr, username, password);
      if cachedKey == CUSTOM && cached.Some? {
        return cached, asked;
      }
      var key := Key(asked);
      if cached.Some? && cachedKey == key {
        return cached, asked;
      }
      d := None;
    }

    /** Under the write lock: looks again, as somebody else may have built it by now, then builds. */
    method BuildOnce(asked: Conf, works: bool) returns (d: Option<Dialer>)
      modifies this
      ensures (Value(), d) == Settle(old(Value()), asked, works)
    {
      var key := Key(asked);
      if cachedKey == CUSTOM && cached.Some? {
        return cached;
      }
      if cached.Some? && cachedKey == key {
        return cached;
      }
      if !works {
        return None;
      }
      if asked.pType == "http" {
        d := Some(Http(asked.pAddr, asked.username, asked.password));
      } else if asked.username != "" {
        d := Some(Socks(asked.pAddr, Some((asked.username, asked.password))));
      } else {
        d := Some(Socks(asked.pAddr, None));
      }
      cached, cachedKey := d, key;
    }

    /** A whole call with nobody else about. */
    method Get(works: bool) returns (d: Option<Dialer>)
      modifies this
      ensures d == Settle(old(Value()), old(Value()).conf, works).1
      ensures Value() == Settle(old(Value()), old(Value()).conf, works).0
      ensures d.Some? ==> Offer(Value(), Key(Value().conf)) == d
      ensures old(cached).None? && d.Some? ==> Suits(d.value, Value().conf)
    {
      var asked;
      d, asked := Look();
      if d.None? {
        d := BuildOnce(asked, works);
      }
    }
  }

  // ---------------------------------------------------------------- interleavings

  /** What a finished call was about and what it got; no dialer when building failed. */
  datatype Answer = Answer(asked: Conf, dialer: Option<Dialer>)

  /** The cache, the calls between their two halves with the configuration each has read, and the calls
      that are done. */
  datatype State = State(cache: Cache, pending: map<nat, Conf>, answers: map<nat, Answer>)

  datatype Step =
    | Update(conf: Conf)
    | SetDialer(d: Option<Dialer>)
    | Enter(id: nat)
    | Leave(id: nat, works: bool)

  function Next(s: State, step: Step): State {
    match step
    case Update(conf) => s.(cache := Updated(conf))
    case SetDialer(d) => s.(cache := Installed(s.cache, d))
    case Enter(id) =>
      if id in s.pending || id in s.answers then s
      else
        var asked := s.cache.conf;
        var d := Offer(s.cache, Key(asked));
        if d.Some? then s.(answers := s.answers[id := Answer(asked, d)])
        else s.(pending := s.pending[id := asked])
    case Leave(id, works) =>
      if id !in s.pending then s
      else
        var (cache, d) := Settle(s.cache, s.pending[id], works);
        State(cache, s.pending - {id}, s.answers[id := Answer(s.pending[id], d)])
  }

  function Run(s: State, steps: History<Step>): State
    decreases steps
  {
    match steps
    case Start => s
    case Then(past, step) => Next(Run(s, past), step)
  }

  function NewState(conf: Conf): State {
    State(Updated(conf), map[], map[])
  }

  // ---------------------------------------------------------------- which keys can be trusted

  predicate NulFree(s: string) {
    '\0' !in s
  }

  /** A configuration of one of the given proxy types, without NUL in type, address and user name. */
  predicate Over(c: Conf, types: set<string>) {
    c.pType in types && NulFree(c.pType) && NulFree(c.pAddr) && NulFree(c.username)
  }

  ghost predicate Faithful(types: set<string>) {
    forall a: Conf, b: Conf :: Over(a, types) && Over(b, types) && Key(a) == Key(b) ==> a == b
  }

  /** No type starts like another one written before an address. */
  ghost predicate Apart(types: set<string>) {
    forall t, u :: t in types && u in types ==> !(t + SEP <= u)
  }

  lemma {:induction false} FirstNul(x: string, y: string, v: string, w: string)
    requires NulFree(x) && NulFree(v) && x + NUL + y == v + NUL + w
    ensures x == v && y == w
  {
    var a, b := x + NUL + y, v + NUL + w;
    assert a[|x|] == b[|v|] == '\0';
    assert (forall i :: 0 <= i < |x| ==> a[i] == x[i]) && (forall i :: 0 <= i < |v| ==> b[i] == v[i]);
    assert |x| == |v|;
    assert a[..|x|] == x && b[..|x|] == v;
    assert a[|x| + 1..] == y && b[|x| + 1..] == w;
  }

  lemma {:induction false} SchemeEnds(t: string, a: string, u: string, b: string)
    requires t + SEP + a == u + SEP + b && |t| <= |u|
    ensures (t == u && a == b) || t + SEP <= u
  {
    var x, y := t + SEP + a, u + SEP + b;
    assert x[..|t|] == t && y[..|u|] == u;
    if |u| == |t| {
      assert x[|t| + 3..] == a && y[|u| + 3..] == b;
    } else {
      assert y[|u|] == SEP[0] && x[|t| + 1] == SEP[1] && x[|t| + 2] == SEP[2];
      assert u[..|t| + 3] == x[..|t| + 3] == t + SEP;
    }
  }

  lemma {:induction false} ApartIsFaithful(types: set<string>, a: Conf, b: Conf)
    requires Apart(types) && Over(a, types) && Over(b, types) && Key(a) == Key(b)
    ensures a == b
  {
    var x, y := a.pType + SEP + a.pAddr, b.pType + SEP + b.pAddr;
    assert NulFree(x) && NulFree(y);
    assert Key(a) == x + NUL + (a.username + NUL + a.password);
    assert Key(b) == y + NUL + (b.username + NUL + b.password);
    FirstNul(x, a.username + NUL + a.password, y, b.username + NUL + b.password);
    FirstNul(a.username, a.password, b.username, b.password);
    if |a.pType| <= |b.pType| {
      SchemeEnds(a.pType, a.pAddr, b.pType, b.pAddr);
    } else {
      SchemeEnds(b.pType, b.pAddr, a.pType, a.pAddr);
    }
  }

  /** Equal keys mean equal configurations exactly when no proxy type begins with another one followed
      by "://"; types, addresses and user names being free of NUL. */
  lemma {:induction false} FaithfulIffApart(types: set<string>)
    requires forall t <- types :: NulFree(t)
    ensures Faithful(types) <==> Apart(types)
  {
    if Apart(types) {
      forall a: Conf, b: Conf | Over(a, types) && Over(b, types) && Key(a) == Key(b) ensures a == b {
        ApartIsFaithful(types, a, b);
      }
    }
    if Faithful(types) {
      forall t, u | t in types && u in types ensures !(t + SEP <= u) {
        if t + SEP <= u {
          var rest := u[|t| + 3..];
          var a, b := Conf(t, rest + SEP, "", ""), Conf(u, "", "", "");
          assert t + SEP + (rest + SEP) == u + SEP + "";
          assert forall c <- a.pAddr :: c in u || c in SEP;
          assert Key(a) == Key(b);
          assert Over(a, types) && Over(b, types);
          assert false;
        }
      }
    }
  }

  // ---------------------------------------------------------------- whose key is its own

  lemma {:induction false} SplitAt(s: string, i: nat)
    requires i < |s| && s[i] == '\0'
    ensures s == s[..i] + NUL + s[i + 1..]
  {
  }

  /** A string with NUL in it, cut at the first one. */
  lemma {:induction false} CutAtNul(s: string) returns (x: string, y: string)
    requires !NulFree(s)
    ensures NulFree(x) && s == x + NUL + y
    decreases |s|
  {
    if s[0] == '\0' {
      x, y := "", s[1..];
      SplitAt(s, 0);
    } else {
      x, y := CutAtNul(s[1..]);
      assert s == [s[0]] + s[1..];
      x := [s[0]] + x;
    }
  }

  function Nuls(s: string): nat {
    if s == "" then 0 else Nuls(s[..|s| - 1]) + if s[|s| - 1] == '\0' then 1 else 0
  }

  lemma {:induction false} NulsAdd(s: string, t: string)
    ensures Nuls(s + t) == Nuls(s) + Nuls(t)
    decreases |t|
  {
    if t == "" {
      assert s + t == s;
    } else {
      assert (s + t)[..|s + t| - 1] == s + t[..|t| - 1];
      NulsAdd(s, t[..|t| - 1]);
    }
  }

  lemma {:induction false} NoNulsIffFree(s: string)
    ensures Nuls(s) == 0 <==> NulFree(s)
    decreases |s|
  {
    if s != "" {
      NoNulsIffFree(s[..|s| - 1]);
      assert s == s[..|s| - 1] + [s[|s| - 1]];
    }
  }

  lemma {:induction false} NulsInThree(x: string, u: string, p: string)
    ensures Nuls(x + NUL + (u + NUL + p)) == Nuls(x) + Nuls(u) + Nuls(p) + 2
  {
    NulsAdd(x + NUL, u + NUL + p);
    NulsAdd(x, NUL);
    NulsAdd(u + NUL, p);
    NulsAdd(u, NUL);
    assert Nuls(NUL) == 1;
  }

  /** Three parts without NUL, with NUL between them: there is no other way to see them. */
  lemma {:induction false} PartsAreUnique(x: string, u: string, p: string, x1: string, u1: string, p1: string)
    requires NulFree(x) && NulFree(u) && NulFree(p)
    requires x + NUL + (u + NUL + p) == x1 + NUL + (u1 + NUL + p1)
    ensures x == x1 && u == u1 && p == p1
  {
    hide NulFree, Nuls;
    NulsInThree(x, u, p);
    NulsInThree(x1, u1, p1);
    NoNulsIffFree(x);
    NoNulsIffFree(u);
    NoNulsIffFree(p);
    NoNulsIffFree(x1);
    NoNulsIffFree(u1);
    FirstNul(x, u + NUL + p, x1, u1 + NUL + p1);
    FirstNul(u, p, u1, p1);
  }

  predicate OwnsKey(a: Conf, b: Conf, types: set<string>) {
    b.pType in types && Key(b) == Key(a) ==> b == a
  }

  lemma {:induction false} CleanOwnsKey(a: Conf, b: Conf, types: set<string>)
    requires Apart(types) && a.pType in types && NulFree(a.pType)
    requires NulFree(a.pAddr) && NulFree(a.username) && NulFree(a.password)
    ensures OwnsKey(a, b, types)
  {
    if b.pType in types && Key(b) == Key(a) {
      var x, y := a.pType + SEP + a.pAddr, b.pType + SEP + b.pAddr;
      assert NulFree(x);
      assert Key(a) == x + NUL + (a.username + NUL + a.password);
      assert Key(b) == y + NUL + (b.username + NUL + b.password);
      PartsAreUnique(x, a.username, a.password, y, b.username, b.password);
      if |a.pType| <= |b.pType| {
        SchemeEnds(a.pType, a.pAddr, b.pType, b.pAddr);
      } else {
        SchemeEnds(b.pType, b.pAddr, a.pType, a.pAddr);
      }
    }
  }

  /** A configuration with NUL in its address or credentials has a double: the same key with the parts cut
      elsewhere. */
  lemma {:induction false} NulHasDouble(a: Conf) returns (b: Conf)
    requires !NulFree(a.pAddr) || !NulFree(a.username) || !NulFree(a.password)
    ensures b.pType == a.pType && b != a && Key(b) == Key(a)
  {
    if !NulFree(a.pAddr) {
      var x, y := CutAtNul(a.pAddr);
      b := Conf(a.pType, x, y, a.username + NUL + a.password);
      assert a.pType + SEP + (x + NUL + y) == a.pType + SEP + x + NUL + y;
      assert Key(b) == a.pType + SEP + x + NUL + y + NUL + (a.username + NUL + a.password) == Key(a);
    } else if !NulFree(a.username) {
      var x, y := CutAtNul(a.username);
      b := Conf(a.pType, a.pAddr, x, y + NUL + a.password);
      assert Key(b) == a.pType + SEP + a.pAddr + NUL + x + NUL + (y + NUL + a.password) == Key(a);
    } else {
      var x, y := CutAtNul(a.password);
      b := Conf(a.pType, a.pAddr, a.username + NUL + x, y);
      assert Key(b) == a.pType + SEP + a.pAddr + NUL + (a.username + NUL + x) + NUL + y == Key(a);
    }
  }

  /** Exactly which configurations share their key with no other one: those without NUL in address, user
      name and password, the proxy types being apart. */
  lemma {:induction false} OwnKeyIffClean(a: Conf, types: set<string>)
    requires Apart(types) && a.pType in types && NulFree(a.pType)
    ensures (forall b :: OwnsKey(a, b, types)) <==> NulFree(a.pAddr) && NulFree(a.username) && NulFree(a.password)
  {
    hide Key, Apart;
    if NulFree(a.pAddr) && NulFree(a.username) && NulFree(a.password) {
      forall b ensures OwnsKey(a, b, types) {
        CleanOwnsKey(a, b, types);
      }
    } else {
      var b := NulHasDouble(a);
      assert !OwnsKey(a, b, types);
    }
  }

  /** The types the program knows. */
  lemma {:induction false} KnownTypesAreFaithful()
    ensures Faithful({"http", "socks5"})
    ensures forall a: Conf :: a.pType in {"http", "socks5"} ==>
      ((forall b :: OwnsKey(a, b, {"http", "socks5"})) <==> NulFree(a.pAddr) && NulFree(a.username) && NulFree(a.password))
  {
    hide OwnsKey, Faithful;
    var types := {"http", "socks5"};
    assert Apart(types) by {
      forall t, u | t in types && u in types ensures !(t + SEP <= u) {
        assert (t + SEP)[|t|] == ':' && ':' !in u;
      }
    }
    FaithfulIffApart(types);
    forall a: Conf | a.pType in types
      ensures (forall b :: OwnsKey(a, b, types)) <==> NulFree(a.pAddr) && NulFree(a.username) && NulFree(a.password)
    {
      OwnKeyIffClean(a, types);
    }
  }

  /** Sharing a key can mean being given the other one's dialer: here another password is sent. */
  lemma {:induction false} NulConfusesKeys() returns (a: Conf, b: Conf)
    ensures a.pType == b.pType == "socks5" && a.pAddr == b.pAddr == "127.0.0.1:1080"
    ensures Key(a) == Key(b) && Build(a) != Build(b)
    ensures Offer(Settle(Updated(a), a, true).0, Key(b)) == Some(Build(a))
  {
    a, b := Conf("socks5", "127.0.0.1:1080", "u\0v", "w"), Conf("socks5", "127.0.0.1:1080", "u", "v\0w");
    assert "u\0v" + NUL + "w" == "u" + NUL + "v\0w";
    assert Key(a) == "socks5" + SEP + "127.0.0.1:1080" + NUL + ("u\0v" + NUL + "w");
    assert Key(b) == "socks5" + SEP + "127.0.0.1:1080" + NUL + ("u" + NUL + "v\0w");
    NoKeyIsCustom(a);
  }

  // ---------------------------------------------------------------- every interleaving

  predicate StepOver(step: Step, types: set<string>) {
    && (step.Update? ==> Over(step.conf, types))
    && (step.SetDialer? ==> step.d.None? || step.d.value.Custom?)
  }

  predicate RunOver(steps: History<Step>, types: set<string>)
    decreases steps
  {
    steps.Then? ==> StepOver(steps.last, types) && RunOver(steps.past, types)
  }

  /** A dialer is of use to a call that read `asked`: it suits just that, or was installed from outside. */
  predicate Serves(d: Dialer, asked: Conf) {
    d.Custom? || Suits(d, asked)
  }

  ghost predicate CacheIsHonest(c: Cache, types: set<string>) {
    && Over(c.conf, types)
    && (c.cached.Some? && c.cached.value.Custom? ==> c.cachedKey == CUSTOM)
    && (c.cached.Some? && !c.cached.value.Custom? ==>
          exists conf :: Over(conf, types) && c.cachedKey == Key(conf) && c.cached.value == Build(conf))
  }

  ghost predicate Honest(s: State, types: set<string>) {
    && CacheIsHonest(s.cache, types)
    && (forall id <- s.pending :: Over(s.pending[id], types))
    && (forall id <- s.answers :: s.answers[id].dialer.Some? ==> Serves(s.answers[id].dialer.value, s.answers[id].asked))
  }

  lemma {:induction false} NoKeyIsCustom(c: Conf)
    ensures Key(c) != CUSTOM
  {
    var i := |c.pType| + 3 + |c.pAddr|;
    assert Key(c)[i] == '\0';
  }

  lemma {:induction false} OffersServe(c: Cache, asked: Conf, types: set<string>)
    requires CacheIsHonest(c, types) && Faithful(types) && Over(asked, types)
    ensures Offer(c, Key(asked)).Some? ==> Serves(Offer(c, Key(asked)).value, asked)
  {
    hide Key, Over;
    if c.cached.Some? && !c.cached.value.Custom? {
      var conf :| Over(conf, types) && c.cachedKey == Key(conf) && c.cached.value == Build(conf);
      NoKeyIsCustom(conf);
      if c.cachedKey == Key(asked) {
        assert conf == asked;
      }
    }
  }

  lemma {:induction false} NextStaysHonest(s: State, step: Step, types: set<string>)
    requires Honest(s, types) && Faithful(types) && StepOver(step, types)
    ensures Honest(Next(s, step), types)
  {
    hide Key, Over, Build, Faithful;
    if step.Enter? {
      OffersServe(s.cache, s.cache.conf, types);
    } else if step.Leave? && step.id in s.pending {
      OffersServe(s.cache, s.pending[step.id], types);
    }
  }

  /** However calls, updates and installations interleave: a call that got a dialer which was not
      installed from outside got the one for the configuration it read when it began. */
  lemma {:induction false} AnswersServe(conf: Conf, steps: History<Step>, types: set<string>)
    requires Faithful(types) && Over(conf, types) && RunOver(steps, types)
    ensures Honest(Run(NewState(conf), steps), types)
    decreases steps
  {
    hide Honest, Faithful, Next, Over;
    if steps == Start {
      StartsHonest(conf, types);
    } else {
      AnswersServe(conf, steps.past, types);
      NextStaysHonest(Run(NewState(conf), steps.past), steps.last, types);
    }
  }

  lemma {:induction false} StartsHonest(conf: Conf, types: set<string>)
    requires Over(conf, types)
    ensures Honest(NewState(conf), types)
  {
  }

  // ---------------------------------------------------------------- an update takes effect at once

  /** Nothing but calls. */
  predicate OnlyCalls(steps: History<Step>)
    decreases steps
  {
    steps.Then? ==> (steps.last.Enter? || steps.last.Leave?) && OnlyCalls(steps.past)
  }

  /** Calls begun before `s` are known to it; those begun since read its configuration, and get that. */
  ghost predicate SinceUpdate(s: State, r: State) {
    && r.cache.conf == s.cache.conf
    && (r.cache.cached.Some? ==> !r.cache.cached.value.Custom?)
    && (forall id <- r.pending :: id !in s.pending ==> r.pending[id] == s.cache.conf)
    && (forall id <- r.answers :: id !in s.pending && id !in s.answers ==>
          && r.answers[id].asked == s.cache.conf
          && (r.answers[id].dialer.Some? ==> Suits(r.answers[id].dialer.value, s.cache.conf)))
  }

  /** A call that begins after an update, with no other change since, gets a dialer built from exactly
      the new settings, though calls begun earlier may meanwhile put dialers for the old ones into the
      cache. */
  lemma {:induction false} UpdateTakesEffect(s: State, conf: Conf, steps: History<Step>, types: set<string>)
    requires Honest(s, types) && Faithful(types) && Over(conf, types) && OnlyCalls(steps)
    ensures var s1 := Next(s, Update(conf));
      SinceUpdate(s1, Run(s1, steps)) && Honest(Run(s1, steps), types)
    decreases steps
  {
    hide Key, Over, Build, Faithful, Honest;
    var s1 := Next(s, Update(conf));
    if steps == Start {
      NextStaysHonest(s, Update(conf), types);
    } else {
      UpdateTakesEffect(s, conf, steps.past, types);
      CallsKeepSince(s1, Run(s1, steps.past), steps.last, types);
      NextStaysHonest(Run(s1, steps.past), steps.last, types);
    }
  }

  lemma {:induction false} CallsKeepSince(s: State, r: State, step: Step, types: set<string>)
    requires SinceUpdate(s, r) && Honest(r, types) && Faithful(types) && (step.Enter? || step.Leave?)
    ensures SinceUpdate(s, Next(r, step))
  {
    hide Key, Over, Faithful;
    if step.Enter? {
      OffersServe(r.cache, r.cache.conf, types);
    } else if step.id in r.pending {
      OffersServe(r.cache, r.pending[step.id], types);
    }
  }

  // ---------------------------------------------------------------- and so does an installation

  /** The cache goes on offering `d`, and every call that has ended since `s` was given it. */
  ghost predicate SinceInstalled(s: State, r: State, d: Dialer) {
    && r.cache == s.cache
    && (forall id <- r.answers :: id !in s.answers ==> r.answers[id].dialer == Some(d))
    && (forall id <- s.answers :: id in r.answers && r.answers[id] == s.answers[id])
  }

  lemma {:induction false} CallsKeepInstalled(s: State, d: Dialer, steps: History<Step>)
    requires OnlyCalls(steps) && NoneAnswered(s)
    ensures var s1 := Next(s, SetDialer(Some(d)));
      SinceInstalled(s1, Run(s1, steps), d) && NoneAnswered(Run(s1, steps))
    decreases steps
  {
    hide Key;
    if steps.Then? {
      CallsKeepInstalled(s, d, steps.past);
    }
  }

  /** A call between its two halves has no answer yet. */
  ghost predicate NoneAnswered(s: State) {
    forall id <- s.pending :: id !in s.answers
  }

  lemma {:induction false} RunsHaveNoneAnswered(s: State, steps: History<Step>)
    requires NoneAnswered(s)
    ensures NoneAnswered(Run(s, steps))
    decreases steps
  {
    hide Key, Settle, Offer;
    if steps.Then? {
      RunsHaveNoneAnswered(s, steps.past);
    }
  }

  /** Once a dialer is installed from outside, in whatever situation, and until the next update or installation,
      every call that ends is given it, whatever configuration the call has read and whenever it began, and the
      cache stays as it is. */
  lemma {:induction false} InstalledIsUsed(conf: Conf, before: History<Step>, d: Dialer, steps: History<Step>)
    requires OnlyCalls(steps)
    ensures var s := Next(Run(NewState(conf), before), SetDialer(Some(d)));
      SinceInstalled(s, Run(s, steps), d)
  {
    RunsHaveNoneAnswered(NewState(conf), before);
    CallsKeepInstalled(Run(NewState(conf), before), d, steps);
  }
}
