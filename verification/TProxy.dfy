/** The transparent proxy's side of a hijacked connection: what it reads ahead to learn the server's
    name, where it dials, and what it relays. */
module TProxies {
  import opened Net
  import opened Sni
  import opened TrackerModel
  import opened ConnTrack
  import opened Duplex
  import opened Histories
  import G = SniGrammar

  // ---------------------------------------------------------------- connections

  /** What comes in on a connection: bytes in pieces of any size, and pauses longer than a deadline. */
  datatype Arrival = Data(bytes: Bytes) | Stall

  /** How it ends once everything has come in. */
  datatype Ending = Eof | Reset

  datatype ReadResult = More | AtEof | WasReset | TimedOut | WasClosed

  function Stream(arrivals: seq<Arrival>): Bytes {
    if arrivals == [] then []
    else (if arrivals[0].Data? then arrivals[0].bytes else []) + Stream(arrivals[1..])
  }

  /** Taking `n` bytes off the first piece. */
  lemma {:induction false} PieceCut(arrivals: seq<Arrival>, n: nat)
    requires arrivals != [] && arrivals[0].Data? && n < |arrivals[0].bytes|
    ensures var bytes, left := arrivals[0].bytes, [Data(arrivals[0].bytes[n..])] + arrivals[1..];
      && Stream(arrivals) == bytes[..n] + Stream(left) && |left| == |arrivals|
      && |Stream(left)| == |Stream(arrivals)| - n && (Stall in left <==> Stall in arrivals)
  {
    var bytes, left := arrivals[0].bytes, [Data(arrivals[0].bytes[n..])] + arrivals[1..];
    assert left[1..] == arrivals[1..] && bytes == bytes[..n] + bytes[n..];
    assert bytes[..n] + (bytes[n..] + Stream(arrivals[1..])) == bytes + Stream(arrivals[1..]);
  }

  class Conn {
    var arrivals: seq<Arrival>
    var deadline: bool
    var written: Bytes
    var room: nat             // how much more the other side accepts before writes fail
    var writeClosed: bool
    var closed: bool
    const ending: Ending

    constructor (arrivals: seq<Arrival>, ending: Ending, room: nat)
      ensures this.arrivals == arrivals && this.ending == ending && this.room == room
      ensures written == [] && !deadline && !writeClosed && !closed
    {
      this.arrivals, this.ending, this.room := arrivals, ending, room;
      written, deadline, writeClosed, closed := [], false, false, false;
    }

    ghost function Unread(): Bytes
      reads this`arrivals
    {
      Stream(arrivals)
    }

    ghost function Size(): nat
      reads this`arrivals
    {
      |Unread()| + |arrivals|
    }

    method SetReadDeadline(on: bool)
      modifies this`deadline
      ensures deadline == on
    {
      deadline := on;
    }

    /** At least one piece, cut to `max` bytes. A pause is an error only while a deadline is set. */
    method Read(max: nat) returns (data: Bytes, r: ReadResult)
      requires max > 0
      modifies this`arrivals
      ensures |data| <= max && data + Unread() == old(Unread())
      ensures r != More ==> data == []
      ensures r == More ==> Size() < old(Size())
      ensures Size() <= old(Size())
      ensures r == AtEof || r == WasReset ==> arrivals == [] && Unread() == [] && ending == (if r == AtEof then Eof else Reset)
      ensures r == TimedOut ==> deadline && Stall in old(arrivals)
      ensures r == WasClosed <==> closed
      ensures Stall !in old(arrivals) ==> Stall !in arrivals
    {
      if closed {
        return [], WasClosed;
      }
      while arrivals != [] && arrivals[0].Stall?
        invariant Unread() == old(Unread()) && Size() <= old(Size())
        invariant Stall !in old(arrivals) ==> arrivals == old(arrivals)
        decreases |arrivals|
      {
        assert Stall in arrivals;
        arrivals := arrivals[1..];
        if deadline {
          return [], TimedOut;
        }
      }
      if arrivals == [] {
        return [], if ending == Eof then AtEof else WasReset;
      }
      var bytes := arrivals[0].bytes;
      if |bytes| <= max {
        arrivals := arrivals[1..];
        return bytes, More;
      }
      PieceCut(arrivals, max);
      arrivals := [Data(bytes[max..])] + arrivals[1..];
      return bytes[..max], More;
    }

    /** Writes all of `data`, or as much as the other side still accepts. */
    method Write(data: Bytes) returns (ok: bool)
      modifies this`written, this`room
      ensures ok <==> !closed && old(room) >= |data|
      ensures written == old(written) + if ok then data else if closed then [] else data[..old(room)]
      ensures room == if ok then old(room) - |data| else if closed then old(room) else 0
    {
      if closed {
        return false;
      }
      var n := if room >= |data| then |data| else room;
      written := written + data[..n];
      room := room - n;
      ok := n == |data|;
      assert data[..|data|] == data;
    }

    method CloseWrite()
      modifies this`writeClosed
      ensures writeClosed
    {
      writeClosed := true;
    }

    method Close()
      modifies this`closed
      ensures closed
    {
      closed := true;
    }
  }

  /** Reads until `want` bytes are there or reading fails. */
  method ReadFull(conn: Conn, want: nat) returns (data: Bytes)
    modifies conn`arrivals
    ensures |data| <= want && data + conn.Unread() == old(conn.Unread())
    ensures Stall !in old(conn.arrivals) ==> Stall !in conn.arrivals
    ensures |data| < want ==> conn.closed || conn.Unread() == [] || (conn.deadline && Stall in old(conn.arrivals))
  {
    data := [];
    while |data| < want
      invariant |data| <= want && data + conn.Unread() == old(conn.Unread())
      invariant Stall !in old(conn.arrivals) ==> Stall !in conn.arrivals
      decreases conn.Size()
    {
      var more, r := conn.Read(want - |data|);
      if r != More {
        return;
      }
      data := data + more;
    }
  }

  // ---------------------------------------------------------------- reading ahead

  const MAX_RECORD := 16384

  /** How much is read ahead of a stream: its first record if that is a handshake record of acceptable
      length, and otherwise just the record header. */
  function Wanted(stream: Bytes): nat {
    if |stream| < 5 || stream[0] != 22 then 5
    else
      var n: nat := U16(stream, 3);
      if n == 0 || n > MAX_RECORD then 5 else 5 + n
  }

  function Ahead(stream: Bytes): Bytes {
    if |stream| <= Wanted(stream) then stream else stream[..Wanted(stream)]
  }

  /** The name a peeked-at beginning gives: a whole record is needed. */
  function NameFrom(ahead: Bytes): (name: Option<Bytes>)
    ensures name.Some? ==> name.value != [] && ahead != []
  {
    if |ahead| <= 5 || |ahead| < Wanted(ahead) then None
    else
      FoundNamesAreNotEmpty(ahead);
      match NameIn(ahead)
      case Found(name) => Some(name)
      case Failed(_) => None
  }

  lemma {:induction false} NamesAreNotEmpty(list: Bytes)
    ensures InNames(list).Found? ==> InNames(list).name != []
    decreases |list|
  {
    if |list| >= 3 && Take16(list[1..]).Field? {
      NamesAreNotEmpty(Take16(list[1..]).rest);
    }
  }

  lemma {:induction false} ExtensionNamesAreNotEmpty(exts: Bytes)
    ensures InExtensions(exts).Found? ==> InExtensions(exts).name != []
    decreases |exts|
  {
    if |exts| >= 4 && Take16(exts[2..]).Field? {
      var body := Take16(exts[2..]);
      if Take16(body.value).Field? {
        NamesAreNotEmpty(Take16(body.value).value);
      }
      ExtensionNamesAreNotEmpty(body.rest);
    }
  }

  lemma {:induction false} FoundNamesAreNotEmpty(data: Bytes)
    ensures NameIn(data).Found? ==> NameIn(data).name != []
  {
    if BlockOf(data).Block? {
      ExtensionNamesAreNotEmpty(BlockOf(data).exts);
    }
  }

  lemma {:induction false} NothingNamesNobody()
    ensures NameFrom([]) == None
  {
  }

  /** Reads at most the first TLS record. On every exit nothing is lost: what was read, followed by what
      is still unread, is the client's stream; and unless the client paused, how much was read depends
      only on the bytes and not on the pieces they came in. */
  method ReadTLSClientHello(conn: Conn) returns (ahead: Bytes, name: Option<Bytes>)
    modifies conn`arrivals, conn`deadline
    ensures ahead + conn.Unread() == old(conn.Unread())
    ensures !conn.deadline
    ensures |ahead| <= 5 + 16384 && name == NameFrom(ahead)
    ensures !conn.closed && Stall !in old(conn.arrivals) ==> ahead == Ahead(old(conn.Unread())) && Stall !in conn.arrivals
  {
    ghost var stream := conn.Unread();
    conn.SetReadDeadline(true);
    var hdr := ReadFull(conn, 5);
    if |hdr| < 5 {
      conn.SetReadDeadline(false);
      return hdr, None;
    }
    assert hdr == stream[..5];
    if hdr[0] != 22 {
      conn.SetReadDeadline(false);
      return hdr, None;
    }
    var recordLen: nat := hdr[3] as int * 0x100 + hdr[4] as int;
    assert recordLen == U16(stream, 3) as int;
    if recordLen <= 0 || recordLen > MAX_RECORD {
      conn.SetReadDeadline(false);
      return hdr, None;
    }
    var body := ReadFull(conn, recordLen);
    conn.SetReadDeadline(false);
    ahead := hdr + body;
    assert ahead + conn.Unread() == hdr + (body + conn.Unread());
    assert recordLen == U16(ahead, 3) as int;
    if |body| < recordLen {
      return ahead, None;
    }
    assert ahead == stream[..5 + recordLen];
    var found := ExtractSNI(ahead);
    name := if found.Found? then Some(found.name) else None;
    FoundNamesAreNotEmpty(ahead);
  }

  // ---------------------------------------------------------------- relaying

  /** One direction of the relay in the middle of its copying loop. */
  class Copier {
    const src: Conn
    const dst: Conn
    const size: nat
    var phase: Phase

    ghost predicate Valid()
      reads this, src, dst
    {
      src != dst && size > 0 && !src.deadline
    }

    ghost function Value(): Pipe
      reads this, src, dst
    {
      Pipe(src.Unread(), src.ending == Reset, phase, dst.written, dst.room)
    }

    ghost function Left(): nat
      reads this, src`arrivals
    {
      2 * src.Size() + if phase == Reading then 1 else if phase.Writing? then 2 else 0
    }

    constructor (src: Conn, dst: Conn, size: nat)
      requires src != dst && size > 0 && !src.deadline
      ensures this.src == src && this.dst == dst && phase == Reading && Valid()
    {
      this.src, this.dst, this.size, phase := src, dst, size, Reading;
    }

    predicate Finished()
      reads this
    {
      phase == Clean || phase == Broken
    }

    /** The read or the write that comes next. A read of no bytes at all changes nothing but the source. */
    method Turn() returns (ghost n: nat)
      requires Valid() && !Finished()
      modifies this`phase, src`arrivals, dst`written, dst`room, dst`writeClosed
      ensures Valid()
      ensures Value() == Turned(old(Value()), src.closed, dst.closed, n) || Value() == old(Value())
      ensures Left() < old(Left())
      ensures dst.writeClosed == (phase == Clean || old(dst.writeClosed))
    {
      hide Stream;
      n := 0;
      if phase == Reading {
        var data, r := src.Read(size);
        if r == AtEof {
          dst.CloseWrite();
          phase := Clean;
        } else if r != More {
          phase := Broken;
        } else if data != [] {
          n := |data|;
          phase := Writing(data);
          assert old(src.Unread())[..n] == data && old(src.Unread())[n..] == src.Unread();
        }
      } else {
        var held := phase.held;
        var wrote := dst.Write(held);
        phase := if wrote then Reading else Broken;
        assert old(dst.written) + [] == old(dst.written);
      }
    }
  }

  /** One direction alone: copies until the source ends or a write fails. What arrives is a beginning of
      what the source had to give, and all of it when no write fails. */
  method Relay(src: Conn, dst: Conn, size: nat) returns (ok: bool)
    requires src != dst && size > 0 && !src.deadline && !src.closed && !dst.closed
    modifies src`arrivals, dst`written, dst`room, dst`writeClosed
    ensures var stream := old(src.Unread());
      if old(dst.room) >= |stream|
      then dst.written == old(dst.written) + stream && src.Unread() == [] && ok == (src.ending == Eof)
      else dst.written == old(dst.written) + stream[..old(dst.room)] && !ok
    ensures dst.writeClosed == (ok || old(dst.writeClosed))
  {
    var copier := new Copier(src, dst, size);
    ghost var first := copier.Value();
    CopyStarts(first);
    while !copier.Finished()
      invariant copier.Valid() && !src.closed && !dst.closed
      invariant CopiesFrom(first, copier.Value())
      invariant dst.writeClosed == (copier.phase == Clean || old(dst.writeClosed))
      decreases copier.Left()
    {
      ghost var before := copier.Value();
      ghost var n := copier.Turn();
      CopyGoesOn(first, before, copier.Value(), n);
    }
    CopyEnds(first, copier.Value());
    ok := copier.phase == Clean;
  }

  /** `p` is on its way from `first`, both connections being open. */
  ghost predicate CopiesFrom(first: Pipe, p: Pipe) {
    var stream := first.written + first.unread;
    && p.resets == first.resets
    && match p.phase
       case Reading =>
         p.written + p.unread == stream && p.room + |p.written| == first.room + |first.written|
       case Writing(held) =>
         p.written + (held + p.unread) == stream && p.room + |p.written| == first.room + |first.written|
       case Clean => p.written == stream && p.unread == [] && first.room >= |first.unread| && !p.resets
       case Broken =>
         if first.room >= |first.unread| then p.written == stream && p.unread == [] && p.resets
         else p.written == stream[..|first.written| + first.room]
  }

  lemma {:induction false} CopyStarts(first: Pipe)
    requires first.phase == Reading
    ensures CopiesFrom(first, first)
  {
  }

  lemma {:induction false} CopyGoesOn(first: Pipe, p: Pipe, q: Pipe, n: nat)
    requires CopiesFrom(first, p) && (q == Turned(p, false, false, n) || q == p)
    ensures CopiesFrom(first, q)
  {
    if p.phase == Reading && q.phase.Writing? {
      assert p.unread == q.phase.held + q.unread;
    } else if p.phase == Reading && p.unread == [] {
      assert p.written + p.unread == p.written;
    } else if p.phase.Writing? && q != p {
      assert p.written + (p.phase.held + p.unread) == p.written + p.phase.held + p.unread;
    }
  }

  lemma {:induction false} CopyEnds(first: Pipe, p: Pipe)
    requires CopiesFrom(first, p) && Done(p)
    ensures if first.room >= |first.unread|
            then p.written == first.written + first.unread && p.unread == [] && (p.phase == Clean <==> !first.resets)
            else p.written == first.written + first.unread[..first.room] && p.phase != Clean
  {
    if first.room < |first.unread| {
      assert (first.written + first.unread)[..|first.written| + first.room] == first.written + first.unread[..first.room];
    }
  }

  /** Both directions at once, in whatever order their turns come. Once one has failed both connections
      are closed, the client's first, though the other direction may go on in between. What has happened is
      one of the interleavings `Duplex` is about, from the moment the replayed bytes were written. */
  method RelayBoth(conn: Conn, remote: Conn, size: nat) returns (ghost run: History<Duplex.Step>)
    requires conn != remote && size > 0 && !conn.deadline && !remote.deadline && !conn.closed && !remote.closed
    modifies conn, remote
    ensures var r := Run(Both(old(conn.Unread()), old(remote.written), old(remote.room), conn.ending,
                              old(remote.Unread()), old(conn.written), old(conn.room), remote.ending), run);
      && Over(r) && remote.written == r.up.written && conn.written == r.down.written
  {
    hide Turned, Run, Stream, Copier.Left, Conn.Size, Conn.Unread, Fresh;
    var up := new Copier(conn, remote, size);
    var down := new Copier(remote, conn, size);
    ghost var s := Both(conn.Unread(), remote.written, remote.room, conn.ending,
                        remote.Unread(), conn.written, conn.room, remote.ending);
    run := Start;
    RunStarts(s);
    while
      invariant up.Valid() && down.Valid()
      invariant Run(s, run).up == up.Value() && Run(s, run).down == down.Value()
      invariant Run(s, run).closed == ClosedSides(conn, remote)
      decreases up.Left() + down.Left() + (if conn.closed then 0 else 1) + (if remote.closed then 0 else 1)
    {
      case !up.Finished() =>
        ghost var was := Run(s, run);
        ghost var n := up.Turn();
        if up.Value() != was.up {
          RunTurns(s, run, Up, n);
          run := Then(run, Turn(Up, n));
        }
      case !down.Finished() =>
        ghost var was := Run(s, run);
        ghost var n := down.Turn();
        if down.Value() != was.down {
          RunTurns(s, run, Down, n);
          run := Then(run, Turn(Down, n));
        }
      case (up.phase == Broken || down.phase == Broken) && !conn.closed =>
        conn.Close();
        RunCloses(s, run, Client);
        run := Then(run, Close(Client));
      case (up.phase == Broken || down.phase == Broken) && conn.closed && !remote.closed =>
        remote.Close();
        RunCloses(s, run, Server);
        run := Then(run, Close(Server));
    }
  }

  lemma {:induction false} RunStarts(s: State)
    ensures Run(s, Start) == s
  {
  }

  lemma {:induction false} RunTurns(s: State, run: History<Duplex.Step>, d: Dir, n: nat)
    ensures var r := Run(s, run);
      Run(s, Then(run, Turn(d, n))) == r.With(d, Turned(r.At(d), Source(d) in r.closed, Sink(d) in r.closed, n))
  {
  }

  lemma {:induction false} RunCloses(s: State, run: History<Duplex.Step>, side: Side)
    requires Run(s, run).up.phase == Broken || Run(s, run).down.phase == Broken
    ensures Run(s, Then(run, Close(side))) == Run(s, run).(closed := Run(s, run).closed + {side})
  {
  }

  ghost function ClosedSides(conn: Conn, remote: Conn): set<Side>
    reads conn, remote
  {
    (if conn.closed then {Client} else {}) + (if remote.closed then {Server} else {})
  }

  /** The two directions as they start. */
  ghost function Both(fromClient: Bytes, toServer: Bytes, serverRoom: nat, client: Ending,
                      fromServer: Bytes, toClient: Bytes, clientRoom: nat, server: Ending): (s: State)
    ensures Fresh(s)
  {
    State(Pipe(fromClient, client == Reset, Reading, toServer, serverRoom),
          Pipe(fromServer, server == Reset, Reading, toClient, clientRoom), {})
  }

  // ---------------------------------------------------------------- one connection

  datatype Target = ByAddress(ip: Ip4, port: Port) | ByName(host: Bytes, port: Port)

  /** The address the client meant. */
  function OriginalTarget(flow: OrigFlow): Option<Target> {
    if flow.dstIP == [0, 0, 0, 0] || flow.dstPort == 0 then None else Some(ByAddress(flow.dstIP, flow.dstPort))
  }

  /** What is dialled is what the client meant: nothing if the destination of its flow is unspecified; the
      port it asked for in any case; on port 443 the host it named, and otherwise the address it asked for. */
  predicate Meant(dialled: Option<Target>, flow: OrigFlow, name: Option<Bytes>) {
    if flow.dstIP == [0, 0, 0, 0] || flow.dstPort == 0 then dialled.None?
    else
      && dialled.Some? && dialled.value.port == flow.dstPort
      && (dialled.value.ByName? <==> flow.dstPort == 443 && name.Some?)
      && (if dialled.value.ByName? then name == Some(dialled.value.host) else dialled.value.ip == flow.dstIP)
  }

  /** A client whose first record carries a host name gets its connection dialled to that name, however
      the record is written and whatever follows it. */
  lemma {:induction false} WrittenNameIsDialled(flow: OrigFlow, h: G.Hello, more: Bytes)
    requires G.Proper(h) && h.frame.tail == [] && |G.Write(h)| <= 5 + 16384
    requires flow.dstIP != [0, 0, 0, 0] && flow.dstPort == 443
    ensures NameFrom(Ahead(G.Write(h) + more)) == Some(h.name)
    ensures forall dialled :: Meant(dialled, flow, NameFrom(Ahead(G.Write(h) + more))) ==> dialled == Some(ByName(h.name, 443))
  {
    hide NameIn, G.HelloBody;
    var record, body := G.Write(h), G.HelloBody(h.frame, G.Extensions(h));
    assert record == [22] + h.frame.version + PutU16(|body|) + body;
    assert record[3..5] == PutU16(|body|) && U16(record, 3) == U16(record[3..5], 0);
    assert U16(record + more, 3) == U16(record, 3);
    assert Ahead(record + more) == record;
    G.WrittenIsFound(h);
  }

  /** Serves one accepted connection, coming from mapped port key `key`. Whatever happens, a mapping that
      was found is active while it is served and gone afterwards, and the connections are closed. The server
      receives a beginning of the client's bytes, in order, and the client a beginning of the server's. All
      the client's bytes reach a server that accepts them, unless copying the other way may fail; all the
      server's bytes reach a client that accepts them, unless the client's copying may fail; what may be
      lost otherwise says Duplex.DeliveryIffSafe. `remote` is the connection dialling gives when it succeeds. */
  method HandleConn(tracker: ConnTracker, conn: Conn, key: ConnKey, remote: Conn, dials: bool, size: nat)
    returns (dialled: Option<Target>)
    requires tracker.Valid() && conn != remote && size > 0
    requires !conn.deadline && !remote.deadline && !conn.closed && !remote.closed
    modifies tracker, conn, remote
    ensures tracker.Valid()
    ensures tracker.Value() ==
      if key in old(tracker.entries) then Delete(Activate(old(tracker.Value()), key), key) else old(tracker.Value())
    ensures dialled.Some? ==> key in old(tracker.entries)
    ensures key in old(tracker.entries) ==>
      var flow := old(tracker.entries)[key].flow;
      && (dialled.None? <==> flow.dstIP == [0, 0, 0, 0] || flow.dstPort == 0)
      && (exists ahead :: ahead <= old(conn.Unread()) && Meant(dialled, flow, NameFrom(ahead)))
      && (Stall !in old(conn.arrivals) ==> Meant(dialled, flow, NameFrom(Ahead(old(conn.Unread())))))
    ensures conn.closed && (dialled.Some? && dials ==> remote.closed)
    ensures old(remote.written) <= remote.written <= old(remote.written) + old(conn.Unread())
    ensures old(conn.written) <= conn.written <= old(conn.written) + old(remote.Unread())
    ensures !(dialled.Some? && dials) ==> remote.written == old(remote.written) && conn.written == old(conn.written)
    ensures dialled.Some? && dials && old(remote.room) >= |old(conn.Unread())| && old(conn.room) >= |old(remote.Unread())| ==>
      && (remote.ending == Eof ==> remote.written == old(remote.written) + old(conn.Unread()))
      && (conn.ending == Eof ==> conn.written == old(conn.written) + old(remote.Unread()))
  {
    hide Meant, Ahead, NameFrom, Stream;
    var target := tracker.Get(key);
    if target.None? {
      conn.Close();
      return None;
    }
    tracker.Activate(key);
    dialled := ServeFlow(conn, target.value.flow, remote, dials, size);
    tracker.Delete(key);
    conn.Close();
  }

  /** The connection of a known flow: reads ahead where the target port is 443, dials, replays and relays. */
  method ServeFlow(conn: Conn, flow: OrigFlow, remote: Conn, dials: bool, size: nat) returns (dialled: Option<Target>)
    requires conn != remote && size > 0
    requires !conn.deadline && !remote.deadline && !conn.closed && !remote.closed
    modifies conn, remote
    ensures dialled.None? <==> flow.dstIP == [0, 0, 0, 0] || flow.dstPort == 0
    ensures exists ahead :: ahead <= old(conn.Unread()) && Meant(dialled, flow, NameFrom(ahead))
    ensures Stall !in old(conn.arrivals) ==> Meant(dialled, flow, NameFrom(Ahead(old(conn.Unread()))))
    ensures dialled.Some? && dials ==> remote.closed
    ensures old(remote.written) <= remote.written <= old(remote.written) + old(conn.Unread())
    ensures old(conn.written) <= conn.written <= old(conn.written) + old(remote.Unread())
    ensures !(dialled.Some? && dials) ==> remote.written == old(remote.written) && conn.written == old(conn.written)
    ensures dialled.Some? && dials && old(remote.room) >= |old(conn.Unread())| && old(conn.room) >= |old(remote.Unread())| ==>
      && (remote.ending == Eof ==> remote.written == old(remote.written) + old(conn.Unread()))
      && (conn.ending == Eof ==> conn.written == old(conn.written) + old(remote.Unread()))
  {
    hide NameFrom, Ahead, Stream;
    var address := OriginalTarget(flow);
    if address.None? {
      assert [] <= conn.Unread() && Meant(None, flow, NameFrom([]));
      return None;
    }
    dialled := address;
    var peekBuf: Bytes := [];
    if flow.dstPort == 443 {
      var ahead, name := ReadTLSClientHello(conn);
      peekBuf := ahead;
      if |ahead| > 0 && name.Some? {
        dialled := Some(ByName(name.value, flow.dstPort));
      }
    }
    assert peekBuf <= old(conn.Unread()) && Meant(dialled, flow, NameFrom(peekBuf)) by {
      NothingNamesNobody();
    }
    if dials {
      ghost var rest := conn.Unread();
      assert old(remote.written) + peekBuf + rest == old(remote.written) + (peekBuf + rest);
      ghost var run := Serve(conn, remote, peekBuf, size);
      remote.Close();
    }
  }

  /** Replays what was read ahead, then relays both ways. If the replay fails nothing is relayed. */
  method Serve(conn: Conn, remote: Conn, peekBuf: Bytes, size: nat) returns (ghost run: History<Duplex.Step>)
    requires conn != remote && size > 0 && !conn.deadline && !remote.deadline && !conn.closed && !remote.closed
    modifies conn, remote
    ensures old(remote.room) < |peekBuf| ==>
      remote.written == old(remote.written) + peekBuf[..old(remote.room)] && conn.written == old(conn.written)
    ensures old(remote.room) >= |peekBuf| ==>
      var s := Both(old(conn.Unread()), old(remote.written) + peekBuf, old(remote.room) - |peekBuf|, conn.ending,
                    old(remote.Unread()), old(conn.written), old(conn.room), remote.ending);
      Over(Run(s, run)) && remote.written == Run(s, run).up.written && conn.written == Run(s, run).down.written
    ensures old(remote.written) <= remote.written <= old(remote.written) + peekBuf + old(conn.Unread())
    ensures old(conn.written) <= conn.written <= old(conn.written) + old(remote.Unread())
    ensures var room := old(remote.room) - |peekBuf|;
      room >= |old(conn.Unread())| && old(conn.room) >= |old(remote.Unread())| ==>
        && (remote.ending == Eof ==> remote.written == old(remote.written) + peekBuf + old(conn.Unread()))
        && (conn.ending == Eof ==> conn.written == old(conn.written) + old(remote.Unread()))
  {
    hide Run, Over, Stream;
    run := Start;
    if |peekBuf| > 0 {
      var ok := remote.Write(peekBuf);
      if !ok {
        assert peekBuf == peekBuf[..old(remote.room)] + peekBuf[old(remote.room)..];
        return;
      }
    } else {
      assert old(remote.written) + peekBuf == old(remote.written);
    }
    ghost var s := Both(conn.Unread(), remote.written, remote.room, conn.ending,
                        remote.Unread(), conn.written, conn.room, remote.ending);
    ghost var server := remote.Unread();
    run := RelayBoth(conn, remote, size);
    BothWaysConserve(s, run, Up);
    BothWaysConserve(s, run, Down);
    WrittenGrows(s, run, Up);
    WrittenGrows(s, run, Down);
    if Safe(s, Up) {
      SafeDelivers(s, run, Up);
    }
    if Safe(s, Down) {
      SafeDelivers(s, run, Down);
    }
  }

  lemma {:induction false} WrittenGrows(s: State, run: History<Duplex.Step>, d: Dir)
    ensures s.At(d).written <= Run(s, run).At(d).written
    decreases run
  {
    if run.Then? {
      WrittenGrows(s, run.past, d);
    }
  }
}
