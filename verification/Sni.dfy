/** Finding the server name in a TLS ClientHello: the parser, a serializer, and how they fit together. */
module Sni {
  import opened Net

  datatype Error =
    | NotHandshake | IncompleteRecord | NotClientHello | IncompleteHello | HelloTooShort
    | BadSessionId | NoCipherSuites | BadCipherSuites | NoCompression | BadCompression
    | NoExtensions | BadExtensions | BadExtension | BadServerName | NotFound

  datatype Result = Found(name: Bytes) | Failed(error: Error)

  // ---------------------------------------------------------------- length-prefixed fields

  type Bytes8 = s: Bytes | |s| < 0x100
  type Bytes16 = s: Bytes | |s| < 0x1_0000

  /** A field and what follows it; or its length is missing, or says more than there is. */
  datatype Taken = Field(value: Bytes, rest: Bytes) | Missing | Cut

  function Take8(b: Bytes): (r: Taken)
    ensures r.Field? ==> |r.value| < 0x100 && b == Put8(r.value, r.rest) && |r.rest| < |b|
  {
    if |b| < 1 then Missing
    else if b[0] > |b| - 1 then Cut
    else Field(b[1..1 + b[0]], b[1 + b[0]..])
  }

  function Put8(value: Bytes8, rest: Bytes): Bytes {
    [|value|] + value + rest
  }

  function Take16(b: Bytes): (r: Taken)
    ensures r.Field? ==> |r.value| < 0x1_0000 && b == Put16(r.value, r.rest) && |r.rest| < |b|
  {
    if |b| < 2 then Missing
    else
      var n := U16(b, 0);
      if n > |b| - 2 then Cut
      else
        assert b[..2] == PutU16(n);
        Field(b[2..2 + n], b[2 + n..])
  }

  function Put16(value: Bytes16, rest: Bytes): Bytes {
    PutU16(|value|) + value + rest
  }

  lemma {:induction false} TakeUndoesPut8(value: Bytes8, rest: Bytes)
    ensures Take8(Put8(value, rest)) == Field(value, rest)
  {
  }

  lemma {:induction false} TakeUndoesPut16(value: Bytes16, rest: Bytes)
    ensures Take16(Put16(value, rest)) == Field(value, rest)
  {
    var b := Put16(value, rest);
    assert U16(b, 0) == U16(PutU16(|value|), 0);
    assert b[2..2 + |value|] == value && b[2 + |value|..] == rest;
  }

  // ---------------------------------------------------------------- what the parser computes

  /** The first non-empty host name in a list of names. */
  function InNames(list: Bytes): Result
    decreases |list|
  {
    if |list| < 3 then Failed(NotFound)
    else
      var text := Take16(list[1..]);
      if !text.Field? then Failed(BadServerName)
      else if list[0] == 0 && text.value != [] then Found(text.value)
      else InNames(text.rest)
  }

  /** A server_name extension without room for its list is passed over. */
  function InBody(body: Bytes): Result {
    var list := Take16(body);
    if list.Field? then InNames(list.value) else Failed(NotFound)
  }

  function InExtension(kind: Port, body: Bytes): Result {
    if kind == 0 then InBody(body) else Failed(NotFound)
  }

  function InExtensions(exts: Bytes): Result
    decreases |exts|
  {
    if |exts| < 4 then Failed(NotFound)
    else
      var body := Take16(exts[2..]);
      if !body.Field? then Failed(BadExtension)
      else
        var here := InExtension(U16(exts, 0), body.value);
        if here == Failed(NotFound) then InExtensions(body.rest) else here
  }

  /** The extension block of a message, or why there is none. */
  datatype Block = Block(exts: Bytes) | NoBlock(error: Error)

  function BlockOfHello(rest: Bytes): Block {
    if |rest| < 4 || rest[0] != 1 then NoBlock(NotClientHello)
    else
      var msgLen := U24(rest, 1);
      if msgLen < 34 || 4 + msgLen > |rest| then NoBlock(IncompleteHello)
      else BlockAfterRandom(rest[38..])
  }

  function BlockAfterRandom(b: Bytes): Block {
    var session := Take8(b);
    if session.Missing? then NoBlock(HelloTooShort)
    else if session.Cut? then NoBlock(BadSessionId)
    else BlockAfterSession(session.rest)
  }

  function BlockAfterSession(b: Bytes): Block {
    var suites := Take16(b);
    if suites.Missing? then NoBlock(NoCipherSuites)
    else if suites.Cut? then NoBlock(BadCipherSuites)
    else BlockAfterSuites(suites.rest)
  }

  function BlockAfterSuites(b: Bytes): Block {
    var compression := Take8(b);
    if compression.Missing? then NoBlock(NoCompression)
    else if compression.Cut? then NoBlock(BadCompression)
    else BlockAfterCompression(compression.rest)
  }

  function BlockAfterCompression(b: Bytes): Block {
    var exts := Take16(b);
    if exts.Missing? then NoBlock(NoExtensions)
    else if exts.Cut? then NoBlock(BadExtensions)
    else Block(exts.value)
  }

  function U24(b: Bytes, i: nat): nat
    requires i + 3 <= |b|
  {
    b[i] as int * 0x1_0000 + b[i + 1] as int * 0x100 + b[i + 2] as int
  }

  function BlockOf(data: Bytes): Block {
    if |data| < 5 || data[0] != 22 then NoBlock(NotHandshake)
    else
      var n := U16(data, 3);
      if n == 0 || |data| < 5 + n then NoBlock(IncompleteRecord)
      else BlockOfHello(data[5..5 + n])
  }

  function NameIn(data: Bytes): Result {
    var block := BlockOf(data);
    if block.NoBlock? then Failed(block.error) else InExtensions(block.exts)
  }

  // ---------------------------------------------------------------- the parser

  lemma {:induction false} TakeAt8(b: Bytes, off: nat)
    requires off <= |b|
    ensures Take8(b[off..]) ==
      if off >= |b| then Missing
      else if off + 1 + b[off] > |b| then Cut
      else Field(b[off + 1..off + 1 + b[off]], b[off + 1 + b[off]..])
  {
  }

  lemma {:induction false} TakeAt16(b: Bytes, off: nat)
    requires off <= |b|
    ensures Take16(b[off..]) ==
      if off + 2 > |b| then Missing
      else if off + 2 + U16(b, off) > |b| then Cut
      else Field(b[off + 2..off + 2 + U16(b, off)], b[off + 2 + U16(b, off)..])
  {
  }

  lemma {:induction false} SessionAt(b: Bytes, off: nat)
    requires off <= |b|
    ensures BlockAfterRandom(b[off..]) ==
      if off >= |b| then NoBlock(HelloTooShort)
      else if off + 1 + b[off] > |b| then NoBlock(BadSessionId)
      else BlockAfterSession(b[off + 1 + b[off]..])
  {
    TakeAt8(b, off);
  }

  lemma {:induction false} SuitesAt(b: Bytes, off: nat)
    requires off <= |b|
    ensures BlockAfterSession(b[off..]) ==
      if off + 2 > |b| then NoBlock(NoCipherSuites)
      else if off + 2 + U16(b, off) > |b| then NoBlock(BadCipherSuites)
      else BlockAfterSuites(b[off + 2 + U16(b, off)..])
  {
    TakeAt16(b, off);
  }

  lemma {:induction false} CompressionAt(b: Bytes, off: nat)
    requires off <= |b|
    ensures BlockAfterSuites(b[off..]) ==
      if off >= |b| then NoBlock(NoCompression)
      else if off + 1 + b[off] > |b| then NoBlock(BadCompression)
      else BlockAfterCompression(b[off + 1 + b[off]..])
  {
    TakeAt8(b, off);
  }

  lemma {:induction false} ExtensionsAt(b: Bytes, off: nat)
    requires off <= |b|
    ensures BlockAfterCompression(b[off..]) ==
      if off + 2 > |b| then NoBlock(NoExtensions)
      else if off + 2 + U16(b, off) > |b| then NoBlock(BadExtensions)
      else Block(b[off + 2..off + 2 + U16(b, off)])
  {
    TakeAt16(b, off);
  }

  /** The parser walks the record by offsets and finds what the grammar above says is there. */
  method ExtractSNI(data: Bytes) returns (r: Result)
    ensures r == NameIn(data)
  {
    hide Take8, Take16, BlockAfterRandom, BlockAfterSession, BlockAfterSuites, BlockAfterCompression, InExtensions;
    if |data| < 5 || data[0] != 22 {
      return Failed(NotHandshake);
    }
    var recordLen: nat := U16(data, 3);
    if recordLen <= 0 || |data| < 5 + recordLen {
      return Failed(IncompleteRecord);
    }
    var rest: Bytes := data[5..5 + recordLen];
    if |rest| < 4 || rest[0] != 1 {
      return Failed(NotClientHello);
    }
    var msgLen := U24(rest, 1);
    if msgLen < 34 || 4 + msgLen > |rest| {
      return Failed(IncompleteHello);
    }
    var offset := 4 + 2 + 32;
    SessionAt(rest, offset);
    if offset >= |rest| {
      return Failed(HelloTooShort);
    }
    var sessionIDLen := rest[offset];
    offset := offset + 1;
    if offset + sessionIDLen > |rest| {
      return Failed(BadSessionId);
    }
    offset := offset + sessionIDLen;
    SuitesAt(rest, offset);
    if offset + 2 > |rest| {
      return Failed(NoCipherSuites);
    }
    var cipherSuitesLen := U16(rest, offset);
    offset := offset + 2;
    if offset + cipherSuitesLen > |rest| {
      return Failed(BadCipherSuites);
    }
    offset := offset + cipherSuitesLen;
    CompressionAt(rest, offset);
    if offset >= |rest| {
      return Failed(NoCompression);
    }
    var compMethodsLen := rest[offset];
    offset := offset + 1;
    if offset + compMethodsLen > |rest| {
      return Failed(BadCompression);
    }
    offset := offset + compMethodsLen;
    ExtensionsAt(rest, offset);
    if offset + 2 > |rest| {
      return Failed(NoExtensions);
    }
    var extsLen := U16(rest, offset);
    offset := offset + 2;
    if offset + extsLen > |rest| {
      return Failed(BadExtensions);
    }
    r := SearchExtensions(rest[offset..offset + extsLen]);
  }

  method SearchExtensions(block: Bytes) returns (r: Result)
    ensures r == InExtensions(block)
  {
    hide Take16;
    var exts := block;
    while |exts| >= 4
      invariant InExtensions(block) == InExtensions(exts)
      decreases |exts|
    {
      TakeAt16(exts, 2);
      var extType := U16(exts, 0);
      var extLen := U16(exts, 2);
      if extLen > |exts| - 4 {
        return Failed(BadExtension);
      }
      if extType == 0 {
        var snData: Bytes := exts[4..4 + extLen];
        TakeAt16(snData, 0);
        assert snData[0..] == snData;
        if |snData| >= 2 {
          var listLen := U16(snData, 0);
          if listLen <= |snData| - 2 {
            var snList: Bytes := snData[2..2 + listLen];
            while |snList| >= 3
              invariant InBody(snData) == InNames(snList)
              decreases |snList|
            {
              TakeAt16(snList, 1);
              var nameType := snList[0];
              var nameLen := U16(snList, 1);
              if nameLen > |snList| - 3 {
                return Failed(BadServerName);
              }
              if nameType == 0 && nameLen > 0 {
                return Found(snList[3..3 + nameLen]);
              }
              snList := snList[3 + nameLen..];
            }
          }
        }
      }
      exts := exts[4 + extLen..];
    }
    r := Failed(NotFound);
  }
}
