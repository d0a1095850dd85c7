/** Values every module shares: bytes, ports, IPv4 addresses and optional results. */
module Net {

  type Byte = x: int | 0 <= x < 0x100
  type Port = x: int | 0 <= x < 0x1_0000
  type Bytes = seq<Byte>

  /** An IPv4 address. The program keys its tables by the dotted string of an address; the string
      determines the four bytes and is determined by them, so the bytes stand for it here. */
  type Ip4 = s: Bytes | |s| == 4 witness [0, 0, 0, 0]

  /** Clock readings and durations are in nanoseconds. */
  const SECOND := 1_000_000_000

  const LOOPBACK: Ip4 := [127, 0, 0, 1]

  datatype Option<+T> = None | Some(value: T)

  /** The big-endian 16-bit number at offset `i`. */
  function U16(b: Bytes, i: nat): Port
    requires i + 2 <= |b|
  {
    b[i] as int * 0x100 + b[i + 1] as int
  }

  /** The two big-endian bytes of a 16-bit number. */
  function PutU16(v: Port): (b: Bytes)
    ensures |b| == 2 && U16(b, 0) == v
  {
    [v / 0x100, v % 0x100]
  }

  /** Overwrites part of `b` with `patch`, from offset `i` on. */
  function Patch(b: Bytes, i: nat, patch: Bytes): (r: Bytes)
    requires i + |patch| <= |b|
    ensures |r| == |b|
    ensures r[i..i + |patch|] == patch
    ensures forall j :: 0 <= j < |b| && !(i <= j < i + |patch|) ==> r[j] == b[j]
  {
    b[..i] + patch + b[i + |patch|..]
  }

  /** The bytes of several packets end to end. */
  function Join(pkts: seq<Bytes>): Bytes {
    if pkts == [] then [] else pkts[0] + Join(pkts[1..])
  }

  lemma {:induction false} JoinAppend(a: seq<Bytes>, b: seq<Bytes>)
    ensures Join(a + b) == Join(a) + Join(b)
    decreases |a|
  {
    if a == [] {
      assert a + b == b;
    } else {
      assert (a + b)[1..] == a[1..] + b;
      JoinAppend(a[1..], b);
    }
  }
}
