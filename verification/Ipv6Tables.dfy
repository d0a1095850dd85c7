/** Reading the system's tables of IPv6 sockets: rows of fixed size behind a row count, all offsets in
    32-bit arithmetic, names through the cache; and when a table is read again at all. */
module Ipv6Tables {
  import opened Net
  import opened Histories
  import opened Packets
  import opened PidNames

  const WORD := 0x1_0000_0000

  datatype Kind = Tcp | Udp

  function RowSize(kind: Kind): nat {
    if kind == Tcp then 56 else 28
  }

  datatype Flow =
    | TcpFlow(localIP: Ip16, localPort: Port, remoteIP: Ip16, remotePort: Port)
    | UdpFlow(localIP: Ip16, localPort: Port)

  /** A row as far as it matters: which socket, whether it is still open, and whose it is. */
  datatype Row = Row(flow: Flow, closed: bool, pid: U32)

  /** A slice beyond the buffer ends the program; it is the only way parsing can fail. */
  datatype Parsed = Flows(flows: map<Flow, string>) | Panic

  // ---------------------------------------------------------------- rows

  const CLOSED := 1

  function RowAt(kind: Kind, row: Bytes): Row
    requires |row| == RowSize(kind)
  {
    if kind == Tcp then
      Row(TcpFlow(row[0..16], U16(row, 20), row[24..40], U16(row, 44)), Le32(row, 48) == CLOSED, Le32(row, 52))
    else
      Row(UdpFlow(row[0..16], U16(row, 20)), false, Le32(row, 24))
  }

  /** `count` rows from the front of `body`, or as many as it holds whole. */
  function RowsIn(kind: Kind, body: Bytes, count: nat): (rows: seq<Row>)
    ensures |rows| <= count
    decreases count
  {
    var size := RowSize(kind);
    if count == 0 || |body| < size then []
    else [RowAt(kind, body[..size])] + RowsIn(kind, body[size..], count - 1)
  }

  function RowsOf(kind: Kind, buf: Bytes): seq<Row> {
    if |buf| < 4 then [] else RowsIn(kind, buf[4..], Le32(buf, 0))
  }

  /** What a list of rows says: of several rows for one socket the last counts; closed sockets and
      processes without a name say nothing. */
  function Listing(rows: seq<Row>, names: U32 -> string): map<Flow, string> {
    if rows == [] then map[]
    else
      var before, row := Listing(rows[..|rows| - 1], names), rows[|rows| - 1];
      if Speaks(row, names) then before[row.flow := names(row.pid)] else before
  }

  predicate Speaks(row: Row, names: U32 -> string) {
    !row.closed && names(row.pid) != ""
  }

  predicate LastFor(rows: seq<Row>, names: U32 -> string, flow: Flow, i: nat) {
    && i < |rows| && rows[i].flow == flow && Speaks(rows[i], names)
    && forall j :: i < j < |rows| && Speaks(rows[j], names) ==> rows[j].flow != flow
  }

  ghost predicate Spoken(rows: seq<Row>, names: U32 -> string, flow: Flow) {
    exists row <- rows :: row.flow == flow && Speaks(row, names)
  }

  /** A socket is listed exactly when some row speaks of it. */
  lemma {:induction false} ListedIffSpoken(rows: seq<Row>, names: U32 -> string, flow: Flow)
    ensures flow in Listing(rows, names) <==> Spoken(rows, names, flow)
    decreases |rows|
  {
    if rows != [] {
      ListedIffSpoken(rows[..|rows| - 1], names, flow);
      SpokenMore(rows, names, flow);
    }
  }

  /** It is listed under the name in the last row that speaks of it. */
  lemma {:induction false} LastRowCounts(rows: seq<Row>, names: U32 -> string, flow: Flow) returns (i: nat)
    requires flow in Listing(rows, names)
    ensures LastFor(rows, names, flow, i) && Listing(rows, names)[flow] == names(rows[i].pid)
    decreases |rows|
  {
    var n := |rows| - 1;
    if rows[n].flow == flow && Speaks(rows[n], names) {
      i := n;
    } else {
      i := LastRowCounts(rows[..n], names, flow);
    }
  }

  lemma {:induction false} SpokenMore(rows: seq<Row>, names: U32 -> string, flow: Flow)
    requires rows != []
    ensures var n := |rows| - 1;
      Spoken(rows, names, flow) <==> Spoken(rows[..n], names, flow) || (rows[n].flow == flow && Speaks(rows[n], names))
  {
    var n := |rows| - 1;
    assert rows == rows[..n] + [rows[n]];
  }

  // ---------------------------------------------------------------- writing a table

  /** All fields of a row; those of no interest are kept as raw bytes. */
  datatype RawRow =
    | RawTcp(localIP: Ip16, localScope: Ip4, localPort: Port, localPad: Bytes, remoteIP: Ip16, remoteScope: Ip4,
             remotePort: Port, remotePad: Bytes, state: U32, owner: U32)
    | RawUdp(localIP: Ip16, localScope: Ip4, localPort: Port, localPad: Bytes, owner: U32)

  predicate Proper(r: RawRow, kind: Kind) {
    && (kind == Tcp <==> r.RawTcp?) && |r.localPad| == 2 && (r.RawTcp? ==> |r.remotePad| == 2)
  }

  /** Ports are stored in network order in the low half of a double word. */
  function WriteRow(r: RawRow): Bytes {
    match r
    case RawTcp(localIP, localScope, localPort, localPad, remoteIP, remoteScope, remotePort, remotePad, state, owner) =>
      localIP + localScope + PutU16(localPort) + localPad
      + remoteIP + remoteScope + PutU16(remotePort) + remotePad + SplitLe32(state) + SplitLe32(owner)
    case RawUdp(localIP, localScope, localPort, localPad, owner) =>
      localIP + localScope + PutU16(localPort) + localPad + SplitLe32(owner)
  }

  function Meaning(r: RawRow): Row {
    match r
    case RawTcp(localIP, _, localPort, _, remoteIP, _, remotePort, _, state, owner) =>
      Row(TcpFlow(localIP, localPort, remoteIP, remotePort), state == 1, owner)
    case RawUdp(localIP, _, localPort, _, owner) =>
      Row(UdpFlow(localIP, localPort), false, owner)
  }

  function WriteRows(rows: seq<RawRow>): Bytes {
    if rows == [] then [] else WriteRow(rows[0]) + WriteRows(rows[1..])
  }

  function WriteTable(rows: seq<RawRow>): Bytes
    requires |rows| < WORD
  {
    SplitLe32(|rows|) + WriteRows(rows)
  }

  lemma {:induction false} JoinLe32(v: U32)
    ensures Le32(SplitLe32(v), 0) == v
  {
    var a := v / 0x100;
    var b := a / 0x100;
    assert v / 0x1_0000 == b;
    assert v / 0x100_0000 == b / 0x100;
    assert v == v % 0x100 + 0x100 * a && a == a % 0x100 + 0x100 * b && b == b % 0x100 + 0x100 * (b / 0x100);
  }

  lemma {:induction false} Le32Within(b: Bytes, i: nat, v: U32)
    requires i + 4 <= |b| && b[i..i + 4] == SplitLe32(v)
    ensures Le32(b, i) == v
  {
    JoinLe32(v);
    assert Le32(b, i) == Le32(b[i..i + 4], 0);
  }

  lemma {:induction false} U16Within(b: Bytes, i: nat, v: Port)
    requires i + 2 <= |b| && b[i..i + 2] == PutU16(v)
    ensures U16(b, i) == v
  {
    assert U16(b, i) == U16(b[i..i + 2], 0);
  }

  lemma {:induction false} RowRoundTrip(kind: Kind, r: RawRow)
    requires Proper(r, kind)
    ensures |WriteRow(r)| == RowSize(kind) && RowAt(kind, WriteRow(r)) == Meaning(r)
  {
    hide Le32, SplitLe32, U16, PutU16;
    var b := WriteRow(r);
    assert b[0..16] == r.localIP;
    assert b[20..22] == PutU16(r.localPort);
    U16Within(b, 20, r.localPort);
    if kind == Tcp {
      assert b[24..40] == r.remoteIP;
      assert b[44..46] == PutU16(r.remotePort);
      U16Within(b, 44, r.remotePort);
      assert b[48..52] == SplitLe32(r.state);
      Le32Within(b, 48, r.state);
      assert |b| == 56 && |SplitLe32(r.owner)| == 4;
      assert b[52..56] == SplitLe32(r.owner);
      Le32Within(b, 52, r.owner);
    } else {
      assert b[24..28] == SplitLe32(r.owner);
      Le32Within(b, 24, r.owner);
    }
  }

  function Meanings(rows: seq<RawRow>): seq<Row> {
    seq(|rows|, i requires 0 <= i < |rows| => Meaning(rows[i]))
  }

  lemma {:induction false} RowsRoundTrip(kind: Kind, rows: seq<RawRow>, rest: Bytes)
    requires forall r <- rows :: Proper(r, kind)
    ensures RowsIn(kind, WriteRows(rows) + rest, |rows|) == Meanings(rows)
    decreases |rows|
  {
    hide WriteRow, RowAt, Meaning;
    if rows != [] {
      assert Proper(rows[0], kind);
      RowRoundTrip(kind, rows[0]);
      RowsRoundTrip(kind, rows[1..], rest);
      var first, more := WriteRow(rows[0]), WriteRows(rows[1..]) + rest;
      assert WriteRows(rows) + rest == first + more;
      assert (first + more)[..RowSize(kind)] == first && (first + more)[RowSize(kind)..] == more;
      assert Meanings(rows) == [Meaning(rows[0])] + Meanings(rows[1..]);
    }
  }

  /** A written table reads back as its rows, whatever unused room follows them in the buffer. */
  lemma {:induction false} TableRoundTrip(kind: Kind, rows: seq<RawRow>, rest: Bytes)
    requires |rows| < WORD && forall r <- rows :: Proper(r, kind)
    ensures RowsOf(kind, WriteTable(rows) + rest) == Meanings(rows)
  {
    hide SplitLe32, Le32, WriteRows, RowsIn;
    var buf := WriteTable(rows) + rest;
    assert buf[0..4] == SplitLe32(|rows|);
    Le32Within(buf, 0, |rows|);
    assert buf[4..] == WriteRows(rows) + rest;
    RowsRoundTrip(kind, rows, rest);
  }

  /** The socket of a row, as the fields of the row name it. */
  predicate IsSocketOf(flow: Flow, r: RawRow) {
    match r
    case RawTcp(localIP, _, localPort, _, remoteIP, _, remotePort, _, _, _) =>
      flow.TcpFlow? && flow.localIP == localIP && flow.localPort == localPort
      && flow.remoteIP == remoteIP && flow.remotePort == remotePort
    case RawUdp(localIP, _, localPort, _, _) =>
      flow.UdpFlow? && flow.localIP == localIP && flow.localPort == localPort
  }

  /** The row is of a process with a name, and if of a TCP socket then not of one in state 1, which is CLOSED. */
  predicate IsLive(r: RawRow, names: U32 -> string) {
    (r.RawTcp? ==> r.state != 1) && names(r.owner) != ""
  }

  /** Of a written table exactly the sockets with a live row are listed. */
  lemma {:induction false} WrittenIsListedIff(kind: Kind, rows: seq<RawRow>, rest: Bytes, names: U32 -> string, flow: Flow)
    requires |rows| < WORD && forall r <- rows :: Proper(r, kind)
    ensures flow in Listing(RowsOf(kind, WriteTable(rows) + rest), names)
       <==> exists r <- rows :: IsSocketOf(flow, r) && IsLive(r, names)
  {
    hide RowsOf, WriteTable, Listing;
    TableRoundTrip(kind, rows, rest);
    ListedIffSpoken(Meanings(rows), names, flow);
    if row :| row in Meanings(rows) && row.flow == flow && Speaks(row, names) {
      var i :| 0 <= i < |rows| && row == Meaning(rows[i]);
      assert rows[i] in rows && IsSocketOf(flow, rows[i]) && IsLive(rows[i], names);
    }
    if r :| r in rows && IsSocketOf(flow, r) && IsLive(r, names) {
      var i :| 0 <= i < |rows| && r == rows[i];
      assert Meanings(rows)[i] == Meaning(r);
      assert Meaning(r) in Meanings(rows) && Meaning(r).flow == flow && Speaks(Meaning(r), names);
    }
  }

  // ---------------------------------------------------------------- 32-bit offsets

  /** The offset of the row whose end no longer fits 32 bits; in either table it starts here. */
  const WRAPS_AT := 0xFFFF_FFE4

  function RowsBeforeWrap(kind: Kind): nat {
    (WRAPS_AT - 4) / RowSize(kind)
  }

  /** The rows run on to where 32-bit offsets wrap around. */
  predicate Wraps(kind: Kind, buf: Bytes) {
    |buf| >= WRAPS_AT && Le32(buf, 0) > RowsBeforeWrap(kind)
  }

  /** A buffer of just under four gigabytes can be such. */
  lemma {:induction false} WrappingHappens(kind: Kind) returns (buf: Bytes)
    ensures |buf| < WORD && Wraps(kind, buf)
  {
    buf := seq(WRAPS_AT, _ => 0xFF);
    assert Le32(buf, 0) == 0xFFFF_FFFF;
  }

  // ---------------------------------------------------------------- parsing

  /** The names a parse sees at time `now`: cached while fresh, asked for otherwise, none for process 0. */
  function Seen(c: Names, now: nat, resolve: U32 -> string): U32 -> string {
    (pid: U32) => NameOf(c, pid, now, resolve(pid))
  }

  /** Two caches in which a parse at time `now` sees the same names. */
  ghost predicate SameNames(c: Names, d: Names, now: nat, resolve: U32 -> string) {
    forall pid: U32 :: NameOf(c, pid, now, resolve(pid)) == NameOf(d, pid, now, resolve(pid))
  }

  lemma {:induction false} LookingKeepsNames(c: Names, d: Names, pid: U32, now: nat, resolve: U32 -> string)
    requires SameNames(c, d, now, resolve)
    ensures SameNames(c, AfterLook(d, pid, now, resolve(pid)), now, resolve)
  {
  }

  lemma {:induction false} SweepingKeepsNames(c: Names, now: nat, resolve: U32 -> string)
    ensures SameNames(c, Swept(c, now), now, resolve)
  {
  }

  lemma {:induction false} ListingDependsOnNames(rows: seq<Row>, f: U32 -> string, g: U32 -> string)
    requires forall pid: U32 :: f(pid) == g(pid)
    ensures Listing(rows, f) == Listing(rows, g)
    decreases |rows|
  {
    if rows != [] {
      ListingDependsOnNames(rows[..|rows| - 1], f, g);
    }
  }

  lemma {:induction false} NextRow(kind: Kind, buf: Bytes, done: seq<Row>, off: nat, left: nat)
    requires |buf| >= 4 && off + RowSize(kind) <= |buf| && left > 0
    requires RowsOf(kind, buf) == done + RowsIn(kind, buf[off..], left)
    ensures var end := off + RowSize(kind);
      RowsOf(kind, buf) == done + [RowAt(kind, buf[off..end])] + RowsIn(kind, buf[end..], left - 1)
  {
    hide RowAt, RowsOf;
    var end := off + RowSize(kind);
    assert buf[off..][..RowSize(kind)] == buf[off..end] && buf[off..][RowSize(kind)..] == buf[end..];
    var rest := RowsIn(kind, buf[end..], left - 1);
    assert done + ([RowAt(kind, buf[off..end])] + rest) == done + [RowAt(kind, buf[off..end])] + rest;
  }

  lemma {:induction false} NoMoreRows(kind: Kind, buf: Bytes, done: seq<Row>, off: nat, left: nat)
    requires |buf| >= 4 && off <= |buf| && (left == 0 || off + RowSize(kind) > |buf|)
    requires RowsOf(kind, buf) == done + RowsIn(kind, buf[off..], left)
    ensures RowsOf(kind, buf) == done
  {
    assert done + [] == done;
  }

  lemma {:induction false} ListingMore(done: seq<Row>, row: Row, names: U32 -> string)
    ensures Listing(done + [row], names) ==
      if Speaks(row, names) then Listing(done, names)[row.flow := names(row.pid)] else Listing(done, names)
  {
    assert (done + [row])[..|done|] == done;
  }

  /** The 32-bit offset of a row that starts within the buffer is its true offset; its end is, too, unless
      it is the one row at which offsets wrap, and then the end lies before the start. */
  lemma {:induction false} Offsets(kind: Kind, buf: Bytes, n: nat)
    requires 4 + RowSize(kind) * n <= |buf| < WORD
    ensures var off := (4 + n * RowSize(kind) % WORD) % WORD;
      var end := (off + RowSize(kind)) % WORD;
      && off == 4 + RowSize(kind) * n
      && (n != RowsBeforeWrap(kind) ==> end == off + RowSize(kind))
      && (n == RowsBeforeWrap(kind) ==> end < off && end <= |buf| && |buf| >= WRAPS_AT)
    ensures n < RowsBeforeWrap(kind) && 4 + RowSize(kind) * n + RowSize(kind) > |buf| ==> |buf| < WRAPS_AT
    ensures n <= RowsBeforeWrap(kind)
  {
    if kind == Tcp {
      assert RowSize(kind) * n == 56 * n;
    } else {
      assert RowSize(kind) * n == 28 * n;
    }
  }

  /** Parses the table of IPv6 TCP sockets. Offsets are computed in 32 bits: the result is the listing of
      the rows the buffer holds if and only if these do not reach the wrap-around. */
  method ParseIPv6TCPRows(buf: Bytes, cache: PidNameCache, now: nat, resolve: U32 -> string) returns (r: Parsed)
    requires |buf| < WORD
    modifies cache
    ensures SameNames(old(cache.entries), cache.entries, now, resolve)
    ensures r == if Wraps(Tcp, buf) then Panic
                 else Flows(Listing(RowsOf(Tcp, buf), Seen(old(cache.entries), now, resolve)))
  {
    hide RowsOf, RowsIn, Listing, AfterLook, NameOf, SameNames;
    ghost var names := Seen(cache.entries, now, resolve);
    NamesAreSame(cache.entries, now, resolve);
    if |buf| < 4 {
      NothingInShortTable(Tcp, buf, names);
      return Flows(map[]);
    }
    var count := Le32(buf, 0);
    var flows: map<Flow, string> := map[];
    ghost var done: seq<Row> := [];
    RowsAtStart(Tcp, buf, names);
    var n := 0;
    while n < count
      invariant 0 <= n <= count && 4 + 56 * n <= |buf|
      invariant RowsOf(Tcp, buf) == done + RowsIn(Tcp, buf[4 + 56 * n..], count - n)
      invariant flows == Listing(done, names)
      invariant SameNames(old(cache.entries), cache.entries, now, resolve)
    {
      Offsets(Tcp, buf, n);
      var off := (4 + n * 56 % WORD) % WORD;
      var end := (off + 56) % WORD;
      if end > |buf| {
        NoMoreRows(Tcp, buf, done, off, count - n);
        return Flows(flows);
      }
      if off > end {
        return Panic;
      }
      var row := buf[off..end];
      NextRow(Tcp, buf, done, off, count - n);
      ListingMore(done, RowAt(Tcp, row), names);
      done := done + [RowAt(Tcp, row)];
      n := n + 1;
      if Le32(row, 48) == CLOSED {
        continue;
      }
      var localPort, remotePort := Ntohs(Le32(row, 20) % 0x1_0000), Ntohs(Le32(row, 44) % 0x1_0000);
      NtohsIsBigEndian(row, 20);
      NtohsIsBigEndian(row, 44);
      var pid := Le32(row, 52);
      SameName(old(cache.entries), cache.entries, pid, now, resolve);
      LookingKeepsNames(old(cache.entries), cache.entries, pid, now, resolve);
      var name := cache.Get(pid, now, resolve);
      if name == "" {
        continue;
      }
      flows := flows[TcpFlow(row[0..16], localPort, row[24..40], remotePort) := name];
    }
    Offsets(Tcp, buf, n);
    NoMoreRows(Tcp, buf, done, 4 + 56 * n, 0);
    return Flows(flows);
  }

  /** The same for UDP sockets, whose rows are shorter and have no state. */
  method ParseIPv6UDPRows(buf: Bytes, cache: PidNameCache, now: nat, resolve: U32 -> string) returns (r: Parsed)
    requires |buf| < WORD
    modifies cache
    ensures SameNames(old(cache.entries), cache.entries, now, resolve)
    ensures r == if Wraps(Udp, buf) then Panic
                 else Flows(Listing(RowsOf(Udp, buf), Seen(old(cache.entries), now, resolve)))
  {
    hide RowsOf, RowsIn, Listing, AfterLook, NameOf, SameNames;
    ghost var names := Seen(cache.entries, now, resolve);
    NamesAreSame(cache.entries, now, resolve);
    if |buf| < 4 {
      NothingInShortTable(Udp, buf, names);
      return Flows(map[]);
    }
    var count := Le32(buf, 0);
    var flows: map<Flow, string> := map[];
    ghost var done: seq<Row> := [];
    RowsAtStart(Udp, buf, names);
    var n := 0;
    while n < count
      invariant 0 <= n <= count && 4 + 28 * n <= |buf|
      invariant RowsOf(Udp, buf) == done + RowsIn(Udp, buf[4 + 28 * n..], count - n)
      invariant flows == Listing(done, names)
      invariant SameNames(old(cache.entries), cache.entries, now, resolve)
    {
      Offsets(Udp, buf, n);
      var off := (4 + n * 28 % WORD) % WORD;
      var end := (off + 28) % WORD;
      if end > |buf| {
        NoMoreRows(Udp, buf, done, off, count - n);
        return Flows(flows);
      }
      if off > end {
        return Panic;
      }
      var row := buf[off..end];
      NextRow(Udp, buf, done, off, count - n);
      ListingMore(done, RowAt(Udp, row), names);
      done := done + [RowAt(Udp, row)];
      n := n + 1;
      var localPort := Ntohs(Le32(row, 20) % 0x1_0000);
      NtohsIsBigEndian(row, 20);
      var pid := Le32(row, 24);
      SameName(old(cache.entries), cache.entries, pid, now, resolve);
      LookingKeepsNames(old(cache.entries), cache.entries, pid, now, resolve);
      var name := cache.Get(pid, now, resolve);
      if name == "" {
        continue;
      }
      flows := flows[UdpFlow(row[0..16], localPort) := name];
    }
    Offsets(Udp, buf, n);
    NoMoreRows(Udp, buf, done, 4 + 28 * n, 0);
    return Flows(flows);
  }

  /** Swaps the two bytes of a 16-bit number. */
  function Ntohs(v: Port): Port {
    v % 0x100 * 0x100 + v / 0x100
  }

  lemma {:induction false} NtohsIsBigEndian(b: Bytes, i: nat)
    requires i + 4 <= |b|
    ensures Ntohs(Le32(b, i) % 0x1_0000) == U16(b, i)
  {
    var low := b[i] as int + b[i + 1] as int * 0x100;
    var high := b[i + 2] as int + b[i + 3] as int * 0x100;
    assert Le32(b, i) == low + high * 0x1_0000;
    LowHalf(low, high);
    SwapBytes(b[i], b[i + 1]);
  }

  lemma {:induction false} LowHalf(low: nat, high: nat)
    requires low < 0x1_0000
    ensures (low + high * 0x1_0000) % 0x1_0000 == low
  {
  }

  lemma {:induction false} SwapBytes(first: Byte, second: Byte)
    ensures Ntohs(first as int + second as int * 0x100) == first as int * 0x100 + second as int
  {
  }

  lemma {:induction false} NamesAreSame(c: Names, now: nat, resolve: U32 -> string)
    ensures SameNames(c, c, now, resolve)
  {
  }

  lemma {:induction false} SameName(c: Names, d: Names, pid: U32, now: nat, resolve: U32 -> string)
    requires SameNames(c, d, now, resolve)
    ensures NameOf(d, pid, now, resolve(pid)) == Seen(c, now, resolve)(pid)
  {
  }

  lemma {:induction false} NothingInShortTable(kind: Kind, buf: Bytes, names: U32 -> string)
    requires |buf| < 4
    ensures Listing(RowsOf(kind, buf), names) == map[]
  {
  }

  lemma {:induction false} RowsAtStart(kind: Kind, buf: Bytes, names: U32 -> string)
    requires |buf| >= 4
    ensures RowsOf(kind, buf) == [] + RowsIn(kind, buf[4..], Le32(buf, 0)) && Listing([], names) == map[]
  {
  }

  // ---------------------------------------------------------------- a fixed resolver

  /** Names without a cache. */
  function Direct(resolve: U32 -> string): U32 -> string {
    (pid: U32) => if pid == 0 then "" else resolve(pid)
  }

  /** Whenever the system is asked in the run, it answers as `resolve` does. */
  predicate AlwaysAnswers(s: State, steps: History<Step>, resolve: U32 -> string)
    decreases steps
  {
    steps.Then? ==>
      && AlwaysAnswers(s, steps.past, resolve)
      && (var q, step := Run(s, steps.past), steps.last;
          step.Ask? && step.id in q.open && q.open[step.id].phase.Asking? ==> step.found == resolve(q.open[step.id].phase.pid))
  }

  ghost predicate Agrees(c: Names, resolve: U32 -> string) {
    forall pid <- c :: c[pid].name == resolve(pid)
  }

  ghost predicate AllAgree(s: State, resolve: U32 -> string) {
    && Agrees(s.cache, resolve)
    && forall id <- s.open :: s.open[id].phase.Heard? ==> s.open[id].phase.name == resolve(s.open[id].phase.pid)
  }

  lemma {:induction false} CacheAgrees(s: State, steps: History<Step>, resolve: U32 -> string)
    requires AllAgree(s, resolve) && AlwaysAnswers(s, steps, resolve)
    ensures AllAgree(Run(s, steps), resolve)
    decreases steps
  {
    if steps.Then? {
      CacheAgrees(s, steps.past, resolve);
    }
  }

  lemma {:induction false} NothingDisagrees(start: nat, resolve: U32 -> string)
    ensures AllAgree(State(map[], start, map[], []), resolve)
  {
  }

  lemma {:induction false} AgreeingIsDirect(c: Names, now: nat, resolve: U32 -> string)
    requires Agrees(c, resolve)
    ensures forall pid: U32 :: Seen(c, now, resolve)(pid) == Direct(resolve)(pid)
  {
    forall pid: U32 ensures NameOf(c, pid, now, resolve(pid)) == Direct(resolve)(pid) {}
  }

  /** While processes keep their names, parsing a written table through the cache, at whatever time, after any
      interleaving of other refreshes with their lookups and sweeps, gives what its rows say under those
      names, as if there were no cache. */
  lemma {:induction false} CachedParseIsDirect(kind: Kind, rows: seq<RawRow>, rest: Bytes, start: nat,
                                               steps: History<Step>, now: nat, resolve: U32 -> string)
    requires |rows| < WORD && forall r <- rows :: Proper(r, kind)
    requires AlwaysAnswers(State(map[], start, map[], []), steps, resolve)
    ensures var s := Run(State(map[], start, map[], []), steps);
      Listing(RowsOf(kind, WriteTable(rows) + rest), Seen(s.cache, now, resolve))
      == Listing(Meanings(rows), Direct(resolve))
  {
    hide RowsOf, WriteTable, Listing, Meanings, NameOf, Run;
    var s := Run(State(map[], start, map[], []), steps);
    NothingDisagrees(start, resolve);
    CacheAgrees(State(map[], start, map[], []), steps, resolve);
    TableRoundTrip(kind, rows, rest);
    AgreeingIsDirect(s.cache, now, resolve);
    ListingDependsOnNames(Meanings(rows), Seen(s.cache, now, resolve), Direct(resolve));
  }

  // ---------------------------------------------------------------- refreshing

  const MIN_INTERVAL := SECOND / 5

  /** The published flows, and when they were last replaced. */
  datatype View = View(flows: map<Flow, string>, last: Option<nat>)

  predicate Due(v: View, now: nat) {
    v.last.Some? ==> now - v.last.value >= 200_000_000
  }

  class Ipv6TCPResolver {
    var flows: map<Flow, string>
    var last: Option<nat>

    ghost function Value(): View
      reads this
    {
      View(flows, last)
    }

    constructor ()
      ensures Value() == View(map[], None)
    {
      flows, last := map[], None;
    }

    method Lookup(flow: Flow) returns (name: Option<string>)
      ensures name.Some? <==> flow in flows
      ensures name.Some? ==> name.value == flows[flow]
    {
      name := if flow in flows then Some(flows[flow]) else None;
    }

    /** Reads the table again unless it was read successfully within the interval. The clock is read when
        the gate is entered, when the table has come, and when all is done. Only a table that was read
        replaces the flows and starts a new interval; expired names are swept first, unnoticed. */
    method RefreshWith(table: Option<Bytes>, cache: PidNameCache, resolve: U32 -> string,
                       entered: nat, now: nat, done: nat)
      returns (panicked: bool)
      requires table.Some? ==> |table.value| < WORD
      modifies this, cache
      ensures !(old(Due(Value(), entered)) && table.Some? && table.value != []) ==>
                !panicked && Value() == old(Value()) && cache.entries == old(cache.entries)
      ensures old(Due(Value(), entered)) && table.Some? && table.value != [] ==>
                && panicked == Wraps(Tcp, table.value)
                && SameNames(old(cache.entries), cache.entries, now, resolve)
                && (!panicked ==>
                      Value() == View(Listing(RowsOf(Tcp, table.value), Seen(old(cache.entries), now, resolve)), Some(done)))
    {
      hide RowsOf, Listing, Swept, NameOf, Wraps;
      if last.Some? && entered - last.value < MIN_INTERVAL {
        return false;
      }
      if table.None? || |table.value| == 0 {
        return false;
      }
      SweepingKeepsNames(cache.entries, now, resolve);
      cache.Sweep(now);
      ghost var swept := cache.entries;
      var parsed := ParseIPv6TCPRows(table.value, cache, now, resolve);
      NamesChain(old(cache.entries), swept, cache.entries, now, resolve);
      if parsed.Panic? {
        return true;
      }
      ListingDependsOnNames(RowsOf(Tcp, table.value), Seen(old(cache.entries), now, resolve), Seen(swept, now, resolve));
      flows := parsed.flows;
      last := Some(done);
      return false;
    }
  }

  lemma {:induction false} NamesChain(a: Names, b: Names, c: Names, now: nat, resolve: U32 -> string)
    requires SameNames(a, b, now, resolve) && SameNames(b, c, now, resolve)
    ensures SameNames(a, c, now, resolve)
    ensures forall pid: U32 :: Seen(a, now, resolve)(pid) == Seen(b, now, resolve)(pid)
  {
  }
}
