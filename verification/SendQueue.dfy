/** The queue of packets waiting to be sent back in one call, and the sending end of the driver. */
module SendQueues {
  import opened Cutting
  import opened Net
  import opened Packets

  const BATCH_PACKETS := 16
  const MAX_PACKET_SIZE := 40 + 0xFFFF
  const RECV_BUF_SIZE := BATCH_PACKETS * MAX_PACKET_SIZE

  /** A packet on the wire. */
  datatype Datagram = Datagram(pkt: Bytes, addr: Address)

  function Sum(lens: seq<nat>): nat {
    if lens == [] then 0 else Sum(lens[..|lens| - 1]) + lens[|lens| - 1]
  }

  /** The packets a gap-free buffer holds, given their lengths. */
  function Cut(buf: Bytes, lens: seq<nat>): (pkts: seq<Bytes>)
    requires Sum(lens) == |buf|
    ensures |pkts| == |lens|
    decreases |lens|
  {
    if lens == [] then []
    else
      var n := |buf| - lens[|lens| - 1];
      Cut(buf[..n], lens[..|lens| - 1]) + [buf[n..]]
  }

  lemma {:induction false} PartSums(lens: seq<nat>, i: nat)
    requires i < |lens|
    ensures Sum(lens[..i + 1]) == Sum(lens[..i]) + lens[i] <= Sum(lens)
    decreases |lens|
  {
    assert lens[..i + 1][..i] == lens[..i];
    if i == |lens| - 1 {
      assert lens[..i + 1] == lens;
    } else {
      PartSums(lens[..|lens| - 1], i);
      assert lens[..|lens| - 1][..i + 1] == lens[..i + 1] && lens[..|lens| - 1][..i] == lens[..i];
    }
  }

  lemma {:induction false} SliceOfFront(buf: Bytes, n: nat, lo: nat, hi: nat)
    requires lo <= hi <= n <= |buf|
    ensures buf[..n][lo..hi] == buf[lo..hi]
  {
  }

  /** Walking the lengths from the front finds the packets that were appended at the back. */
  lemma {:induction false} CutAt(buf: Bytes, lens: seq<nat>, i: nat)
    requires Sum(lens) == |buf| && i < |lens|
    ensures Sum(lens[..i]) + lens[i] <= |buf|
    ensures Cut(buf, lens)[i] == buf[Sum(lens[..i])..Sum(lens[..i]) + lens[i]]
    decreases |lens|
  {
    PartSums(lens, i);
    var init := lens[..|lens| - 1];
    var n := |buf| - lens[|lens| - 1];
    if i < |init| {
      CutAt(buf[..n], init, i);
      assert init[..i] == lens[..i] && init[i] == lens[i];
      SliceOfFront(buf, n, Sum(lens[..i]), Sum(lens[..i]) + lens[i]);
      assert Cut(buf, lens)[i] == Cut(buf[..n], init)[i];
    } else {
      assert lens[..i] == init;
    }
  }

  /** The batched send hands the driver the buffer as it is: the queued packets, end to end. */
  lemma {:induction false} CutIsSplit(buf: Bytes, lens: seq<nat>)
    requires Sum(lens) == |buf|
    ensures Join(Cut(buf, lens)) == buf
    decreases |lens|
  {
    if lens != [] {
      var n := |buf| - lens[|lens| - 1];
      CutIsSplit(buf[..n], lens[..|lens| - 1]);
      JoinAppend(Cut(buf[..n], lens[..|lens| - 1]), [buf[n..]]);
    }
  }

  function Pair(pkts: seq<Bytes>, addrs: seq<Address>): seq<Datagram>
    requires |pkts| == |addrs|
  {
    seq(|pkts|, i requires 0 <= i < |pkts| => Datagram(pkts[i], addrs[i]))
  }

  function PacketsOf(batch: seq<Datagram>): (pkts: seq<Bytes>)
    ensures |pkts| == |batch|
  {
    seq(|batch|, i requires 0 <= i < |batch| => batch[i].pkt)
  }

  function AddressesOf(batch: seq<Datagram>): (addrs: seq<Address>)
    ensures |addrs| == |batch|
  {
    seq(|batch|, i requires 0 <= i < |batch| => batch[i].addr)
  }

  /** What a driver told to send `count` packets makes of a buffer: it is given no lengths, so it goes by
      the length fields, and it sends either all of the buffer or nothing. */
  function Resent(buf: Bytes, addrs: seq<Address>): seq<Datagram> {
    var pieces := Split(buf, |addrs|);
    if pieces.ok && |pieces.pkts| == |addrs| then Pair(pieces.pkts, addrs) else []
  }

  /** What sending a batch puts on the wire when the driver accepts that many packets: by one batched call
      all or nothing, and one by one all up to the first that fails. */
  function Arrives(batch: seq<Datagram>, batched: bool, accepted: nat): seq<Datagram> {
    if !batched then (if accepted >= |batch| then batch else batch[..accepted])
    else if accepted < |batch| then []
    else Resent(Join(PacketsOf(batch)), AddressesOf(batch))
  }

  ghost predicate Delimited(batch: seq<Datagram>) {
    forall d <- batch :: SelfDelimited(d.pkt)
  }

  /** Packets that state their own lengths come out of the batched call as they went in. */
  lemma {:induction false} DelimitedArrive(batch: seq<Datagram>, batched: bool, accepted: nat)
    requires Delimited(batch)
    ensures Arrives(batch, batched, accepted) ==
      if accepted >= |batch| then batch else if batched then [] else batch[..accepted]
  {
    hide SelfDelimited;
    forall p <- PacketsOf(batch) ensures SelfDelimited(p) {
      var i :| 0 <= i < |batch| && p == batch[i].pkt;
      assert batch[i] in batch;
    }
    SplitUndoesJoin(PacketsOf(batch));
    assert Pair(PacketsOf(batch), AddressesOf(batch)) == batch;
  }

  class SendQueue {
    var buf: Bytes
    var addrs: seq<Address>
    var lens: seq<nat>
    var capacity: nat

    ghost predicate Valid()
      reads this
    {
      Sum(lens) == |buf| && |addrs| == |lens| && |buf| <= capacity && forall n <- lens :: n > 0
    }

    ghost function Packets(): seq<Datagram>
      requires Valid()
      reads this
    {
      Pair(Cut(buf, lens), addrs)
    }

    constructor ()
      ensures Valid() && Packets() == [] && buf == [] && capacity == 1_049_200
    {
      buf, addrs, lens, capacity := [], [], [], RECV_BUF_SIZE;
    }

    /** Appends a copy of the packet. Only when the reserved room is used up does the buffer grow. */
    method Push(pkt: Bytes, addr: Address)
      requires Valid()
      modifies this
      ensures Valid()
      ensures Packets() == old(Packets()) + if pkt == [] then [] else [Datagram(pkt, addr)]
      ensures |buf| == old(|buf|) + |pkt| && |lens| <= old(|lens|) + 1
      ensures capacity == if old(|buf|) + |pkt| <= old(capacity) then old(capacity) else old(|buf|) + |pkt|
    {
      if |pkt| == 0 {
        return;
      }
      if |buf| + |pkt| > capacity {
        capacity := |buf| + |pkt|;
      }
      buf := buf + pkt;
      addrs := addrs + [addr];
      lens := lens + [|pkt|];
      assert lens[..|lens| - 1] == old(lens);
      assert buf[..|buf| - |pkt|] == old(buf) && buf[|buf| - |pkt|..] == pkt;
      assert Cut(buf, lens) == Cut(old(buf), old(lens)) + [pkt];
      assert Packets() == old(Packets()) + [Datagram(pkt, addr)];
    }

    method WouldOverflow(n: nat) returns (b: bool)
      requires Valid()
      ensures b <==> |buf| + n > capacity
    {
      b := capacity - |buf| < n;
    }

    method Count() returns (n: nat)
      ensures n == |lens|
    {
      n := |lens|;
    }

    method Reset()
      modifies this
      ensures Valid() && Packets() == [] && buf == [] && capacity == old(capacity)
    {
      buf, addrs, lens := [], [], [];
    }
  }

  /** The sending end of the driver handle: what has been put on the wire so far. */
  class Handle {
    var wire: seq<Datagram>
    const hasSendEx: bool

    constructor (hasSendEx: bool)
      ensures wire == [] && this.hasSendEx == hasSendEx
    {
      this.wire := [];
      this.hasSendEx := hasSendEx;
    }

    /** One packet; `works` says whether the driver accepts it. */
    method Send(pkt: Bytes, addr: Address, works: bool) returns (ok: bool)
      modifies this
      ensures ok == (works && pkt != [])
      ensures wire == old(wire) + if ok then [Datagram(pkt, addr)] else []
    {
      if |pkt| == 0 || !works {
        return false;
      }
      wire := wire + [Datagram(pkt, addr)];
      ok := true;
    }

    /** The whole queue, in order. Where the driver has a batched call it is handed the buffer and the
        addresses; otherwise packets go one by one, stopping at the first that fails. `accepted` is how
        many packets the driver accepts. */
    method SendBatch(q: SendQueue, accepted: nat) returns (ok: bool)
      requires q.Valid()
      modifies this
      ensures ok <==> |Arrives(q.Packets(), hasSendEx, accepted)| == |q.lens|
      ensures wire == old(wire) + Arrives(q.Packets(), hasSendEx, accepted)
    {
      var count := q.Count();
      PairParts(q.buf, q.addrs, q.lens);
      if count == 0 {
        NothingArrives(q.Packets(), hasSendEx, accepted);
        return true;
      }
      if hasSendEx {
        ok := SendEx(q.buf, q.addrs, accepted);
        return;
      }
      ok := SendOneByOne(q, accepted);
    }

    /** The driver's batched call. It cuts the buffer itself, by the length fields of the packets. */
    method SendEx(buf: Bytes, addrs: seq<Address>, accepted: nat) returns (ok: bool)
      requires addrs != []
      modifies this
      ensures ok <==> accepted >= |addrs| && Split(buf, |addrs|).ok
      ensures wire == old(wire) + if accepted >= |addrs| then Resent(buf, addrs) else []
      ensures |Resent(buf, addrs)| == if Split(buf, |addrs|).ok then |addrs| else 0
    {
      SplitCutsFromFront(buf, |addrs|);
      var pieces := Split(buf, |addrs|);
      if accepted < |addrs| || !pieces.ok {
        return false;
      }
      wire := wire + Pair(pieces.pkts, addrs);
      ok := true;
    }

    method SendOneByOne(q: SendQueue, accepted: nat) returns (ok: bool)
      requires q.Valid()
      modifies this
      ensures ok <==> accepted >= |q.lens|
      ensures wire == old(wire) + if ok then q.Packets() else q.Packets()[..accepted]
    {
      ghost var packets := q.Packets();
      var off := 0;
      var idx := 0;
      while idx < |q.lens|
        invariant 0 <= idx <= |q.lens| && idx <= accepted
        invariant off == Sum(q.lens[..idx])
        invariant wire == old(wire) + packets[..idx]
      {
        var n := q.lens[idx];
        assert n in q.lens;
        CutAt(q.buf, q.lens, idx);
        PartSums(q.lens, idx);
        assert packets[idx] == Datagram(q.buf[off..off + n], q.addrs[idx]);
        var sent := Send(q.buf[off..off + n], q.addrs[idx], idx < accepted);
        if !sent {
          assert idx == accepted;
          return false;
        }
        assert packets[..idx + 1] == packets[..idx] + [packets[idx]];
        off := off + n;
        idx := idx + 1;
      }
      assert packets[..|q.lens|] == packets;
      ok := true;
    }
  }

  lemma {:induction false} PairParts(buf: Bytes, addrs: seq<Address>, lens: seq<nat>)
    requires Sum(lens) == |buf| && |addrs| == |lens|
    ensures var batch := Pair(Cut(buf, lens), addrs);
      PacketsOf(batch) == Cut(buf, lens) && AddressesOf(batch) == addrs && Join(PacketsOf(batch)) == buf
  {
    CutIsSplit(buf, lens);
    assert PacketsOf(Pair(Cut(buf, lens), addrs)) == Cut(buf, lens);
    assert AddressesOf(Pair(Cut(buf, lens), addrs)) == addrs;
  }

  lemma {:induction false} NothingArrives(batch: seq<Datagram>, batched: bool, accepted: nat)
    requires batch == []
    ensures Arrives(batch, batched, accepted) == []
  {
  }
}
