/** The two directions of a relayed connection, copying at the same time. Each direction alternates
    between reading some bytes and writing them, until its source ends or a read or write fails. Once a
    direction has failed the two connections are closed, one after the other, under the other direction,
    which may have got anywhere by then. */
module Duplex {
  import opened Net
  import opened Histories

  datatype Phase = Reading | Writing(held: Bytes) | Clean | Broken

  /** One direction: what its source has yet to give and whether it then ends in an error, where the copying
      stands, what its sink has got and how much more the sink accepts. */
  datatype Pipe = Pipe(unread: Bytes, resets: bool, phase: Phase, written: Bytes, room: nat)

  datatype Dir = Up | Down
  datatype Side = Client | Server

  function Source(d: Dir): Side {
    if d == Up then Client else Server
  }

  function Sink(d: Dir): Side {
    if d == Up then Server else Client
  }

  function Other(d: Dir): Dir {
    if d == Up then Down else Up
  }

  datatype State = State(up: Pipe, down: Pipe, closed: set<Side>) {
    function At(d: Dir): Pipe {
      if d == Up then up else down
    }

    function With(d: Dir, p: Pipe): State {
      if d == Up then this.(up := p) else this.(down := p)
    }
  }

  predicate Done(p: Pipe) {
    p.phase == Clean || p.phase == Broken
  }

  /** Half a turn of the copying loop: a read, of `n` bytes if there are any, or the write of what was read. */
  function Turned(p: Pipe, sourceClosed: bool, sinkClosed: bool, n: nat): Pipe {
    match p.phase
    case Reading =>
      if sourceClosed then p.(phase := Broken)
      else if p.unread == [] then p.(phase := if p.resets then Broken else Clean)
      else if n == 0 || n > |p.unread| then p
      else p.(unread := p.unread[n..], phase := Writing(p.unread[..n]))
    case Writing(held) =>
      if sinkClosed then p.(phase := Broken)
      else if |held| <= p.room then p.(phase := Reading, written := p.written + held, room := p.room - |held|)
      else p.(phase := Broken, written := p.written + held[..p.room], room := 0)
    case Clean => p
    case Broken => p
  }

  datatype Step = Turn(d: Dir, n: nat) | Close(side: Side)

  function Next(s: State, step: Step): State {
    match step
    case Turn(d, n) => s.With(d, Turned(s.At(d), Source(d) in s.closed, Sink(d) in s.closed, n))
    case Close(side) =>
      if s.up.phase == Broken || s.down.phase == Broken then s.(closed := s.closed + {side}) else s
  }

  function Run(s: State, steps: History<Step>): State
    decreases steps
  {
    match steps
    case Start => s
    case Then(past, step) => Next(Run(s, past), step)
  }

  predicate Over(s: State) {
    Done(s.up) && Done(s.down)
  }

  /** Both directions about to start, nothing closed. */
  predicate Fresh(s: State) {
    s.up.phase == Reading && s.down.phase == Reading && s.closed == {}
  }

  // ---------------------------------------------------------------- nothing is lost, doubled or mixed

  /** Every byte of `stream` is written, held or unread, in this order; a failed direction may have lost
      what it held, so that its sink has a beginning of the stream. */
  ghost predicate Conserves(p: Pipe, stream: Bytes) {
    match p.phase
    case Reading => p.written + p.unread == stream
    case Writing(held) => p.written + held + p.unread == stream
    case Clean => p.written == stream
    case Broken => p.written <= stream
  }

  lemma {:induction false} TurnConserves(p: Pipe, sourceClosed: bool, sinkClosed: bool, n: nat, stream: Bytes)
    requires Conserves(p, stream)
    ensures Conserves(Turned(p, sourceClosed, sinkClosed, n), stream)
  {
    var q := Turned(p, sourceClosed, sinkClosed, n);
    if p.phase == Reading && q.phase.Writing? {
      assert p.unread == q.phase.held + q.unread;
      assert p.written + (q.phase.held + q.unread) == p.written + q.phase.held + q.unread;
    } else if p.phase.Writing? && q.phase == Broken && !sinkClosed {
      assert p.phase.held == p.phase.held[..p.room] + p.phase.held[p.room..];
      assert stream == p.written + p.phase.held[..p.room] + (p.phase.held[p.room..] + p.unread);
    } else if p.phase.Writing? && q.phase == Broken {
      assert stream == p.written + (p.phase.held + p.unread);
    }
  }

  lemma {:induction false} RunConserves(s: State, steps: History<Step>, d: Dir, stream: Bytes)
    requires Conserves(s.At(d), stream)
    ensures Conserves(Run(s, steps).At(d), stream)
    decreases steps
  {
    hide Turned, Conserves;
    if steps.Then? {
      RunConserves(s, steps.past, d, stream);
      if steps.last.Turn? && steps.last.d == d {
        var r := Run(s, steps.past);
        TurnConserves(r.At(d), Source(d) in r.closed, Sink(d) in r.closed, steps.last.n, stream);
      }
    }
  }

  lemma {:induction false} WrittenIsPrefix(p: Pipe, stream: Bytes)
    requires Conserves(p, stream)
    ensures p.written <= stream
  {
    if p.phase.Writing? {
      assert stream == p.written + (p.phase.held + p.unread);
    }
  }

  /** At every moment of every interleaving, failures and closing included, a sink has got a beginning of
      what it had at the start followed by what the source gives; all of it if its direction ended cleanly. */
  lemma {:induction false} BothWaysConserve(s: State, steps: History<Step>, d: Dir)
    requires Fresh(s)
    ensures var stream := s.At(d).written + s.At(d).unread;
      var r := Run(s, steps).At(d);
      r.written <= stream && (r.phase == Clean ==> r.written == stream)
  {
    var stream := s.At(d).written + s.At(d).unread;
    RunConserves(s, steps, d, stream);
    WrittenIsPrefix(Run(s, steps).At(d), stream);
  }

  // ---------------------------------------------------------------- when everything must arrive

  /** No error can come from this direction itself. */
  predicate CannotFail(p: Pipe) {
    !p.resets && p.room >= |p.unread|
  }

  /** The sink of `d` has room for all, and the other direction cannot fail, unless there is nothing to copy. */
  predicate Safe(s: State, d: Dir) {
    s.At(d).room >= |s.At(d).unread| && (s.At(d).unread == [] || CannotFail(s.At(Other(d))))
  }

  /** A direction with room for what it has not yet written. */
  predicate Roomy(p: Pipe, stream: Bytes) {
    match p.phase
    case Reading => p.written + p.unread == stream && p.room >= |p.unread|
    case Writing(held) => p.written + held + p.unread == stream && p.room >= |held| + |p.unread|
    case Clean => p.written == stream
    case Broken => p.written == stream
  }

  predicate Unfailing(p: Pipe) {
    && !p.resets && p.phase != Broken
    && (p.phase == Reading ==> p.room >= |p.unread|)
    && (p.phase.Writing? ==> p.room >= |p.phase.held| + |p.unread|)
  }

  /** While `d` copies, nothing is closed and the other direction is unfailing. */
  predicate OnTheSafeSide(s: State, d: Dir, stream: Bytes) {
    && Roomy(s.At(d), stream)
    && (s.At(d).phase != Broken ==> s.closed == {} && Unfailing(s.At(Other(d))))
  }

  lemma {:induction false} TurnStaysRoomy(p: Pipe, n: nat, stream: Bytes)
    requires Roomy(p, stream)
    ensures Roomy(Turned(p, false, false, n), stream)
  {
    var q := Turned(p, false, false, n);
    if p.phase == Reading && q.phase.Writing? {
      assert p.unread == q.phase.held + q.unread;
      assert p.written + (q.phase.held + q.unread) == p.written + q.phase.held + q.unread;
    }
  }

  lemma {:induction false} TurnStaysUnfailing(p: Pipe, n: nat)
    requires Unfailing(p)
    ensures Unfailing(Turned(p, false, false, n))
  {
  }

  lemma {:induction false} RunStaysSafe(s: State, steps: History<Step>, d: Dir, stream: Bytes)
    requires OnTheSafeSide(s, d, stream)
    ensures OnTheSafeSide(Run(s, steps), d, stream)
    decreases steps
  {
    hide Turned, Roomy, Unfailing;
    if steps.Then? {
      RunStaysSafe(s, steps.past, d, stream);
      var r, step := Run(s, steps.past), steps.last;
      if r.At(d).phase == Broken {
        BrokenStaysBroken(r.At(d));
      } else if step.Turn? && step.d == d {
        TurnStaysRoomy(r.At(d), step.n, stream);
      } else if step.Turn? {
        TurnStaysUnfailing(r.At(Other(d)), step.n);
      } else {
        UnfailingIsNotBroken(r.At(Other(d)));
      }
    }
  }

  lemma {:induction false} BrokenStaysBroken(p: Pipe)
    requires p.phase == Broken
    ensures forall a, b, n :: Turned(p, a, b, n) == p
  {
  }

  lemma {:induction false} UnfailingIsNotBroken(p: Pipe)
    requires Unfailing(p)
    ensures p.phase != Broken
  {
  }

  lemma {:induction false} SafeDelivers(s: State, steps: History<Step>, d: Dir)
    requires Fresh(s) && Safe(s, d) && Over(Run(s, steps))
    ensures Run(s, steps).At(d).written == s.At(d).written + s.At(d).unread
  {
    var stream := s.At(d).written + s.At(d).unread;
    if s.At(d).unread == [] {
      assert s.At(d).written == stream;
      NothingToCopy(s, steps, d);
    } else {
      RunStaysSafe(s, steps, d, stream);
    }
  }

  lemma {:induction false} NothingToCopy(s: State, steps: History<Step>, d: Dir)
    requires Fresh(s) && s.At(d).unread == []
    ensures var r := Run(s, steps).At(d);
      !r.phase.Writing? && r.unread == [] && r.written == s.At(d).written
    decreases steps
  {
    if steps.Then? {
      NothingToCopy(s, steps.past, d);
    }
  }

  /** A direction that can fail, brought to fail on its own: a read of everything, the write, and the
      read that finds the end. */
  function Fail(d: Dir, p: Pipe): History<Step> {
    var all := Then(Then(Start, Turn(d, |p.unread|)), Turn(d, 0));
    if p.unread == [] then Then(Start, Turn(d, 0))
    else if p.room < |p.unread| then all
    else Then(all, Turn(d, 0))
  }

  lemma {:induction false} FailBreaks(s: State, d: Dir)
    requires Fresh(s) && !CannotFail(s.At(d))
    ensures var r, p := Run(s, Fail(d, s.At(d))), s.At(d);
      && r.At(d).phase == Broken && r.closed == {} && r.At(Other(d)) == s.At(Other(d))
      && (p.room < |p.unread| ==> r.At(d).written == p.written + p.unread[..p.room])
  {
    var p := s.At(d);
    if p.unread != [] {
      var s1 := Next(s, Turn(d, |p.unread|));
      assert p.unread[..|p.unread|] == p.unread && p.unread[|p.unread|..] == [];
      assert s1.At(d) == p.(unread := [], phase := Writing(p.unread));
      var s2 := Next(s1, Turn(d, 0));
      var one := Then(Start, Turn(d, |p.unread|));
      assert Run(s, one) == s1;
      assert Run(s, Then(one, Turn(d, 0))) == s2;
    }
  }

  /** Then the connection the other direction reads from is closed, and its next read fails. */
  lemma {:induction false} CutShort(s: State, steps: History<Step>, d: Dir) returns (longer: History<Step>)
    requires var r := Run(s, steps);
      r.At(d).phase == Broken && r.closed == {} && r.At(Other(d)).phase == Reading
    ensures var r, r1 := Run(s, steps), Run(s, longer);
      Over(r1) && r1.At(d) == r.At(d) && r1.At(Other(d)).written == r.At(Other(d)).written
  {
    longer := Then(Then(steps, Close(Source(Other(d)))), Turn(Other(d), 0));
    assert Run(s, longer) == Next(Next(Run(s, steps), Close(Source(Other(d)))), Turn(Other(d), 0));
  }

  /** Exactly when one side is sure to get everything: if and only if it has room for it all and the other
      direction cannot fail, or there is nothing to copy. A server that resets, or a client that stops
      reading, can cost the server bytes the client sent, and the other way round. */
  lemma {:induction false} DeliveryIffSafe(s: State, d: Dir)
    requires Fresh(s)
    ensures Safe(s, d) <==>
      forall steps :: Over(Run(s, steps)) ==> Run(s, steps).At(d).written == s.At(d).written + s.At(d).unread
  {
    hide Run;
    if Safe(s, d) {
      forall steps | Over(Run(s, steps)) ensures Run(s, steps).At(d).written == s.At(d).written + s.At(d).unread {
        SafeDelivers(s, steps, d);
      }
    } else {
      var steps := Loses(s, d);
      assert Over(Run(s, steps)) && Run(s, steps).At(d).written != s.At(d).written + s.At(d).unread;
    }
  }

  lemma {:induction false} Loses(s: State, d: Dir) returns (steps: History<Step>)
    requires Fresh(s) && !Safe(s, d)
    ensures Over(Run(s, steps)) && |Run(s, steps).At(d).written| < |s.At(d).written| + |s.At(d).unread|
  {
    hide Run, Turned;
    if s.At(d).room < |s.At(d).unread| {
      FailBreaks(s, d);
      steps := CutShort(s, Fail(d, s.At(d)), d);
    } else {
      FailBreaks(s, Other(d));
      steps := CutShort(s, Fail(Other(d), s.At(Other(d))), Other(d));
    }
  }
}
