/** A batch: a gap-free buffer of packets, cut by their own length fields and handled in place. */
module Batches {
  import opened Cutting
  import opened Net
  import opened Packets
  import opened PacketLoop
  import opened LoopInvariants
  import opened Handling
  import opened SendQueues
  import opened Interceptors

  // ---------------------------------------------------------------- the machine on a whole batch

  function ProcessAll(s: State, pkts: seq<Bytes>, addrs: seq<Address>, answers: seq<Answers>): (r: State)
    requires Sane(s) && s.pc == Idle && |pkts| <= |addrs| && |pkts| <= |answers|
    ensures Sane(r) && r.pc == Idle && r.cfg == s.cfg && r.now == s.now && s.outs <= r.outs
    decreases |pkts|
  {
    if pkts == [] then s
    else
      var n := |pkts| - 1;
      Process(ProcessAll(s, pkts[..n], addrs, answers), pkts[n], addrs[n], answers[n])
  }

  lemma {:induction false} ProcessAllMore(s: State, pkts: seq<Bytes>, pkt: Bytes, addrs: seq<Address>, answers: seq<Answers>)
    requires Sane(s) && s.pc == Idle && |pkts| < |addrs| && |pkts| < |answers|
    ensures ProcessAll(s, pkts + [pkt], addrs, answers)
         == Process(ProcessAll(s, pkts, addrs, answers), pkt, addrs[|pkts|], answers[|pkts|])
  {
    assert (pkts + [pkt])[..|pkts|] == pkts;
  }

  /** A batch keeps every invariant: in particular its outputs are, in order, images of some of its
      packets, at most one of each. */
  lemma {:induction false} BatchKeepsInvariants(s: State, pkts: seq<Bytes>, addrs: seq<Address>, answers: seq<Answers>)
    requires Well(s) && s.pc == Idle && |pkts| <= |addrs| && |pkts| <= |answers|
    ensures Well(ProcessAll(s, pkts, addrs, answers))
    ensures Ordered(s) ==> Ordered(ProcessAll(s, pkts, addrs, answers))
    decreases |pkts|
  {
    hide Process, GoodPc, GoodTable, Ordered;
    if pkts != [] {
      var n := |pkts| - 1;
      BatchKeepsInvariants(s, pkts[..n], addrs, answers);
      ProcessKeepsInvariants(ProcessAll(s, pkts[..n], addrs, answers), pkts[n], addrs[n], answers[n]);
    }
  }

  // ---------------------------------------------------------------- the batch loop

  /** The machine is at `r` after the packets `done`, the first `off` bytes; cutting the rest of the
      buffer cuts the rest of its packets. */
  ghost predicate Reached(s: State, orig: Bytes, addrs: seq<Address>, answers: seq<Answers>,
                          done: seq<Bytes>, off: nat, r: State)
    requires |addrs| == |answers|
  {
    && Sane(s) && s.pc == Idle && off <= |orig| && |done| <= |addrs|
    && r == ProcessAll(s, done, addrs, answers) && Well(r)
    && (var rest := Split(orig[off..], |addrs| - |done|);
        Split(orig, |addrs|) == Pieces(done + rest.pkts, rest.ok))
  }

  lemma {:induction false} ReachedAtStart(s: State, orig: Bytes, addrs: seq<Address>, answers: seq<Answers>)
    requires |addrs| == |answers| && Well(s) && s.pc == Idle
    ensures Reached(s, orig, addrs, answers, [], 0, s)
  {
    assert orig[0..] == orig;
    var rest := Split(orig, |addrs|);
    assert Pieces([] + rest.pkts, rest.ok) == rest;
  }

  lemma {:induction false} ReachedNext(s: State, orig: Bytes, addrs: seq<Address>, answers: seq<Answers>,
                                       done: seq<Bytes>, off: nat, r: State, len: nat)
    requires |addrs| == |answers| && Reached(s, orig, addrs, answers, done, off, r)
    requires off < |orig| && |done| < |addrs| && PacketLen(orig[off..]) == Length(len)
    ensures 0 < len && off + len <= |orig|
    ensures var p := |done|;
      Reached(s, orig, addrs, answers, done + [orig[off..off + len]], off + len, Process(r, orig[off..off + len], addrs[p], answers[p]))
    ensures Well(Process(r, orig[off..off + len], addrs[|done|], answers[|done|]))
  {
    hide Process, Well;
    var p := |done|;
    var pkt := orig[off..off + len];
    assert orig[off..][..len] == pkt && orig[off..][len..] == orig[off + len..];
    ProcessKeepsInvariants(r, pkt, addrs[p], answers[p]);
    ProcessAllMore(s, done, pkt, addrs, answers);
    var rest := Split(orig[off + len..], |addrs| - p - 1);
    assert done + ([pkt] + rest.pkts) == done + [pkt] + rest.pkts;
  }

  /** Where the loop stops, and what it then returns. */
  lemma {:induction false} ReachedTheEnd(s: State, orig: Bytes, addrs: seq<Address>, answers: seq<Answers>,
                                         done: seq<Bytes>, off: nat, r: State)
    requires |addrs| == |answers| && Reached(s, orig, addrs, answers, done, off, r)
    requires off == |orig| || |done| == |addrs| || PacketLen(orig[off..]).Bad?
    ensures Split(orig, |addrs|) == Pieces(done, off == |orig| && |done| == |addrs|)
    ensures |done| <= |addrs| && Sane(s) && s.pc == Idle && r == ProcessAll(s, done, addrs, answers)
  {
    hide Process, Well, PacketLen;
    assert done + [] == done;
  }

  /** From `l` to `r` the packets `sent` were appended to the queue: at most `k` of them, of at most `n`
      bytes together. Nothing was flushed and nothing grew. */
  ghost predicate Appended(l: Line, r: Line, sent: seq<Datagram>, n: nat, k: nat) {
    r == l.(batch := l.batch + sent, size := r.size) && r.size <= l.size + n && |sent| <= k
  }

  lemma {:induction false} NothingAppended(l: Line, outs: seq<Output>)
    ensures Appended(l, l, Wire(outs[|outs|..]), 0, 0)
  {
    assert l.batch + [] == l.batch;
  }

  lemma {:induction false} AppendedMore(l: Line, m: Line, r: Line, a: seq<Output>, b: seq<Output>, c: seq<Output>,
                                        n: nat, k: nat, len: nat, accepted: nat)
    requires a <= b <= c && Appended(l, m, Wire(b[|a|..]), n, k)
    requires Sends(m, r, Wire(c[|b|..]), len, accepted) && m.size + len <= m.capacity
    ensures Appended(l, r, Wire(c[|a|..]), n + len, k + 1)
  {
    assert Wire(c[|a|..]) == Wire(b[|a|..]) + Wire(c[|b|..]);
    assert l.batch + Wire(b[|a|..]) + Wire(c[|b|..]) == l.batch + (Wire(b[|a|..]) + Wire(c[|b|..]));
  }

  ghost function HeardAll(i: Interceptor, answers: seq<Answers>): (r: seq<Answers>)
    reads i
    ensures |r| == |answers| && forall k :: 0 <= k < |r| ==> r[k] == i.Heard(answers[k])
  {
    if i.handle == null then seq(|answers|, k requires 0 <= k < |answers| => answers[k].(sums := None)) else answers
  }

  /** One turn of the loop: the packet at `off` is handled in its place, what follows it stays put. */
  method HandleNext(i: Interceptor, q: SendQueue, buf: array<Byte>, off: nat, len: nat, n: nat, addrs: array<Address>,
                    p: nat, answers: Answers, now: nat, accepted: nat, ghost r: State)
    requires off + len <= n <= buf.Length && p < addrs.Length && q.Valid()
    requires i.Matches(r) && r.pc == Idle && r.now == now && Well(r)
    modifies q, buf, addrs, i.tracker, i.policies, i.Handles()
    ensures buf[off + len..n] == old(buf[off + len..n])
    ensures forall k :: 0 <= k < addrs.Length && k != p ==> addrs[k] == old(addrs[k])
    ensures q.Valid()
    ensures var r1 := Process(r, old(buf[off..off + len]), old(addrs[p]), i.Heard(answers));
      && i.Matches(r1) && r.outs <= r1.outs && r1.now == now && r1.pc == Idle
      && Sends(old(i.LineOf(q)), i.LineOf(q), Wire(r1.outs[|r.outs|..]), len, accepted)
  {
    hide Process, GoodPc, GoodTable, Sends, Wire;
    i.HandlePacket(q, buf, off, off + len, addrs, p, answers, now, accepted, r);
    assert buf[off + len..n] == buf[off + len..][..n - off - len];
    assert old(buf[off + len..n]) == old(buf[off + len..])[..n - off - len];
  }

  /** Cuts the first `n` bytes of the receive buffer and handles each packet in its place. Although
      packets are rewritten while later ones are still to be cut, the result is that of cutting the
      buffer as it was received; on failure all packets before the bad place have been handled. The
      queue takes no more bytes than were cut off and no more packets than were handled, so with room
      for the batch it neither overflows nor grows, and nothing is put on the wire early. */
  method ProcessBatch(i: Interceptor, q: SendQueue, buf: array<Byte>, n: nat, addrs: array<Address>, count: nat,
                      answers: seq<Answers>, now: nat, accepted: nat, ghost s: State)
    returns (ok: bool)
    requires n <= buf.Length && count <= addrs.Length && |answers| == count
    requires q.Valid() && |q.buf| + n <= q.capacity
    requires i.Matches(s) && s.pc == Idle && s.now == now && Well(s)
    modifies buf, addrs, q, i.tracker, i.policies, i.Handles()
    ensures ok == Split(old(buf[..n]), count).ok
    ensures var pkts := Split(old(buf[..n]), count).pkts;
      && |pkts| <= count && q.Valid()
      && (var r := ProcessAll(s, pkts, old(addrs[..count]), HeardAll(i, answers));
          && i.Matches(r)
          && Appended(old(i.LineOf(q)), i.LineOf(q), Wire(r.outs[|s.outs|..]), n, |pkts|))
  {
    hide Process, ProcessAll, Split, Well, PacketLen, Wire, Reached, Appended, Sends;
    ghost var orig, origAddrs, heard := buf[..n], addrs[..count], HeardAll(i, answers);
    ghost var done: seq<Bytes> := [];
    ghost var r, line := s, i.LineOf(q);
    ReachedAtStart(s, orig, origAddrs, heard);
    NothingAppended(line, s.outs);
    var off, p := 0, 0;
    while p < count && off < n
      invariant 0 <= off <= n && 0 <= p <= count && |done| == p
      invariant Reached(s, orig, origAddrs, heard, done, off, r)
      invariant Well(r) && r.pc == Idle && r.now == now && s.outs <= r.outs
      invariant buf[off..n] == orig[off..]
      invariant forall k :: p <= k < count ==> addrs[k] == origAddrs[k]
      invariant i.Matches(r) && q.Valid()
      invariant Appended(line, i.LineOf(q), Wire(r.outs[|s.outs|..]), off, p)
    {
      var len := PacketLen(buf[off..n]);
      if len.Bad? {
        ReachedTheEnd(s, orig, origAddrs, heard, done, off, r);
        AppendedAtMost(line, i.LineOf(q), Wire(r.outs[|s.outs|..]), off, n, p);
        return false;
      }
      ReachedNext(s, orig, origAddrs, heard, done, off, r, len.n);
      if off + len.n > n {
        assert false;
      }
      ghost var pkt := orig[off..off + len.n];
      ArraySlices(buf, off, len.n, n);
      SequenceSlices(orig, off, len.n);
      ghost var r1, before := Process(r, pkt, origAddrs[p], heard[p]), i.LineOf(q);
      RoomLeft(line, before, Wire(r.outs[|s.outs|..]), off, p);
      HandleNext(i, q, buf, off, len.n, n, addrs, p, answers[p], now, accepted, r);
      AppendedMore(line, before, i.LineOf(q), s.outs, r.outs, r1.outs, off, p, len.n, accepted);
      r := r1;
      done := done + [pkt];
      off := off + len.n;
      p := p + 1;
    }
    ReachedTheEnd(s, orig, origAddrs, heard, done, off, r);
    AppendedAtMost(line, i.LineOf(q), Wire(r.outs[|s.outs|..]), off, n, p);
    ok := off == n && p == count;
  }

  lemma {:induction false} ArraySlices(buf: array<Byte>, off: nat, len: nat, n: nat)
    requires off + len <= n <= buf.Length
    ensures buf[off..off + len] == buf[off..n][..len] && buf[off + len..n] == buf[off..n][len..]
  {
  }

  lemma {:induction false} SequenceSlices(s: Bytes, off: nat, len: nat)
    requires off + len <= |s|
    ensures s[off..off + len] == s[off..][..len] && s[off + len..] == s[off..][len..]
  {
  }

  lemma {:induction false} AppendedAtMost(l: Line, r: Line, sent: seq<Datagram>, off: nat, n: nat, k: nat)
    requires Appended(l, r, sent, off, k) && off <= n
    ensures Appended(l, r, sent, n, k)
  {
  }

  lemma {:induction false} RoomLeft(l: Line, r: Line, sent: seq<Datagram>, off: nat, k: nat)
    requires Appended(l, r, sent, off, k)
    ensures r.size <= l.size + off && r.capacity == l.capacity
  {
  }

  // ---------------------------------------------------------------- what reaches the wire

  /** Every packet received states its own length, as one that was cut off does. */
  ghost predicate AllInputsDelimited(s: State) {
    forall i <- s.inputs :: SelfDelimited(i.pkt)
  }

  lemma {:induction false} ImageIsDelimited(o: Output, i: Input, tproxy: Port)
    requires IsImage(o, i, tproxy) && SelfDelimited(i.pkt)
    ensures SelfDelimited(o.pkt)
  {
    hide SelfDelimited, Hijacked, Reversed;
    if IsHijack(o, i, tproxy) {
      var port, sums :| o.pkt == Hijacked(i.pkt, port, tproxy, sums);
      HijackedIsDelimited(i.pkt, port, tproxy, sums);
    } else if IsReverse(o, i, tproxy) {
      var target, sums :| o.pkt == Reversed(i.pkt, target, sums) && o.addr == ReversedAddr(i.addr, target);
      ReversedIsDelimited(i.pkt, target, sums);
    }
  }

  /** Whatever has been done to them, the packets sent state their own lengths. */
  lemma {:induction false} OutputsAreDelimited(s: State, from: nat)
    requires Ordered(s) && AllInputsDelimited(s) && from <= |s.outs|
    ensures Delimited(Wire(s.outs[from..]))
  {
    hide SelfDelimited, IsImage;
    forall d <- Wire(s.outs[from..]) ensures SelfDelimited(d.pkt) {
      var k :| 0 <= k < |s.outs| - from && d == Wire(s.outs[from..])[k];
      var o := s.outs[from + k];
      assert o in s.outs && o.idx < |s.inputs|;
      ImageIsDelimited(o, s.inputs[o.idx], s.cfg.tproxy);
    }
  }

  lemma {:induction false} BatchKeepsDelimited(s: State, pkts: seq<Bytes>, addrs: seq<Address>, answers: seq<Answers>)
    requires Sane(s) && s.pc == Idle && |pkts| <= |addrs| && |pkts| <= |answers|
    requires AllDelimited(pkts) && AllInputsDelimited(s)
    ensures AllInputsDelimited(ProcessAll(s, pkts, addrs, answers))
    decreases |pkts|
  {
    hide Process, SelfDelimited;
    if pkts != [] {
      var n := |pkts| - 1;
      BatchKeepsDelimited(s, pkts[..n], addrs, answers);
      ProcessAddsInput(ProcessAll(s, pkts[..n], addrs, answers), pkts[n], addrs[n], answers[n]);
      assert pkts[n] in pkts;
    }
  }

  lemma {:induction false} ProcessAddsInput(s: State, pkt: Bytes, addr: Address, answers: Answers)
    requires Sane(s) && s.pc == Idle
    ensures Process(s, pkt, addr, answers).inputs == s.inputs + [Input(pkt, addr, s.cfg.upstream)]
  {
    hide Finish, RouteOf;
  }

  /** What holds between two turns of the receive loop. */
  ghost predicate BetweenBatches(s: State) {
    s.pc == Idle && Well(s) && Ordered(s) && AllInputsDelimited(s)
  }

  lemma {:induction false} StartsBetweenBatches(cfg: Config, ttl: int)
    ensures BetweenBatches(NewState(cfg, ttl))
  {
    NewStateIsWell(cfg, ttl);
  }

  lemma {:induction false} BatchToBatch(s: State, buf: Bytes, count: nat, addrs: seq<Address>, answers: seq<Answers>)
    requires BetweenBatches(s) && |addrs| == |answers| == count
    ensures var r := ProcessAll(s, Split(buf, count).pkts, addrs, answers);
      BetweenBatches(r) && Delimited(Wire(r.outs[|s.outs|..]))
  {
    hide Split, ProcessAll, Well, Ordered, AllInputsDelimited, Delimited, Wire;
    BetweenMeans(s);
    var pkts := Split(buf, count).pkts;
    SplitCutsFromFront(buf, count);
    BatchKeepsInvariants(s, pkts, addrs, answers);
    BatchKeepsDelimited(s, pkts, addrs, answers);
    OutputsAreDelimited(ProcessAll(s, pkts, addrs, answers), |s.outs|);
  }

  /** One turn of the receive loop, on whatever `n` bytes and `count` addresses the driver returned: the
      batch is handled and what it queued is put on the wire, in order, all at once. The buffers reserved
      at the start are always enough, and the queue is empty again for the next turn. On its way out the
      driver finds each packet by its length field, as the rewritten packets still have theirs. */
  method PumpBatch(i: Interceptor, q: SendQueue, buf: array<Byte>, n: nat, addrs: array<Address>, count: nat,
                   answers: seq<Answers>, now: nat, accepted: nat, ghost s: State)
    requires buf.Length == RECV_BUF_SIZE && addrs.Length == BATCH_PACKETS
    requires n <= buf.Length && count <= addrs.Length && |answers| == count
    requires q.Valid() && q.buf == [] && q.lens == [] && q.capacity == RECV_BUF_SIZE
    requires i.Matches(s) && s.now == now && BetweenBatches(s)
    modifies buf, addrs, q, i.tracker, i.policies, i.Handles()
    ensures q.Valid() && q.buf == [] && q.lens == [] && q.capacity == RECV_BUF_SIZE
    ensures var pkts := if n == 0 then [] else Split(old(buf[..n]), count).pkts;
      && |pkts| <= count
      && (var r := ProcessAll(s, pkts, old(addrs[..count]), HeardAll(i, answers));
          var sent := Wire(r.outs[|s.outs|..]);
          && i.Matches(r) && BetweenBatches(r)
          && |sent| <= |pkts|
          && (i.handle != null ==>
                i.handle.wire == old(i.handle.wire) +
                  if accepted >= |sent| then sent else if i.handle.hasSendEx then [] else sent[..accepted]))
  {
    hide Process, Split, Well, PacketLen, Wire, BetweenBatches, Delimited, Arrives, ProcessAll, Appended, HeardAll;
    BetweenMeans(s);
    ghost var line := i.LineOf(q);
    ghost var pkts := if n == 0 then [] else Split(old(buf[..n]), count).pkts;
    ghost var r := ProcessAll(s, pkts, addrs[..count], HeardAll(i, answers));
    if n > 0 && count > 0 {
      BatchToBatch(s, buf[..n], count, addrs[..count], HeardAll(i, answers));
      ghost var sent := Wire(r.outs[|s.outs|..]);
      var ok := ProcessBatch(i, q, buf, n, addrs, count, answers, now, accepted, s);
      AppendedToEmpty(line, i.LineOf(q), sent, n, |pkts|);
      DelimitedArrive(sent, i.handle != null && i.handle.hasSendEx, accepted);
      i.FlushQueue(q, accepted);
    } else {
      NothingToDo(s, addrs[..count], HeardAll(i, answers));
      assert i.handle != null ==> i.handle.wire + [] == i.handle.wire;
    }
  }

  lemma {:induction false} AppendedToEmpty(l: Line, r: Line, sent: seq<Datagram>, n: nat, k: nat)
    requires Appended(l, r, sent, n, k) && l.batch == []
    ensures r.batch == sent && |sent| <= k && r.capacity == l.capacity && r.wire == l.wire && r.batched == l.batched
  {
  }

  lemma {:induction false} BetweenMeans(s: State)
    requires BetweenBatches(s)
    ensures s.pc == Idle && Sane(s) && Well(s)
  {
  }

  lemma {:induction false} NothingToDo(s: State, addrs: seq<Address>, answers: seq<Answers>)
    requires Sane(s) && s.pc == Idle
    ensures ProcessAll(s, [], addrs, answers) == s && Wire(s.outs[|s.outs|..]) == []
  {
  }
}
