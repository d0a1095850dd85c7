/** A serializer for ClientHello records, and the proof that the parser inverts it: what is found is
    exactly what a writer put first, for every way to write the record. */
module SniGrammar {
  import opened Net
  import opened Sni

  // ---------------------------------------------------------------- the serializer

  datatype Name = Name(kind: Byte, text: Bytes16)
  datatype Ext = Ext(kind: Port, body: Bytes16)

  function WriteName(name: Name, rest: Bytes): Bytes {
    [name.kind] + Put16(name.text, rest)
  }

  function WriteNames(names: seq<Name>, rest: Bytes): Bytes {
    if names == [] then rest else WriteName(names[0], WriteNames(names[1..], rest))
  }

  function WriteExt(ext: Ext, rest: Bytes): Bytes {
    PutU16(ext.kind) + Put16(ext.body, rest)
  }

  function WriteExts(exts: seq<Ext>, rest: Bytes): Bytes {
    if exts == [] then rest else WriteExt(exts[0], WriteExts(exts[1..], rest))
  }

  /** Everything around the extension block: the record's version, the length the message claims, version
      and random, the three vectors, what the record holds after the extensions, and what follows it. */
  datatype Frame = Frame(version: Bytes, msgLen: nat, opening: Bytes, session: Bytes8, suites: Bytes16,
                         compression: Bytes8, slack: Bytes, tail: Bytes)

  function PutU24(n: nat): (b: Bytes)
    requires n < 0x100_0000
    ensures |b| == 3 && U24(b, 0) == n
  {
    [n / 0x1_0000, n / 0x100 % 0x100, n % 0x100]
  }

  function Vectors(f: Frame, exts: Bytes16): Bytes {
    Put8(f.session, Put16(f.suites, Put8(f.compression, Put16(exts, f.slack))))
  }

  function HelloBody(f: Frame, exts: Bytes16): Bytes
    requires f.msgLen < 0x100_0000
  {
    [1] + PutU24(f.msgLen) + f.opening + Vectors(f, exts)
  }

  /** All lengths fit their fields, and the message claims no more than the record holds. */
  predicate Fits(f: Frame, exts: Bytes16) {
    && |f.version| == 2 && |f.opening| == 34 && 34 <= f.msgLen < 0x100_0000
    && 4 + f.msgLen <= |HelloBody(f, exts)| < 0x1_0000
  }

  function WriteRecord(f: Frame, exts: Bytes16): Bytes
    requires Fits(f, exts)
  {
    [22] + f.version + Put16(HelloBody(f, exts), f.tail)
  }

  // ---------------------------------------------------------------- the frame

  lemma {:induction false} VectorsAreRead(f: Frame, exts: Bytes16)
    ensures BlockAfterRandom(Vectors(f, exts)) == Block(exts)
  {
    hide Take8, Take16, Put8, Put16;
    TakeUndoesPut16(exts, f.slack);
    TakeUndoesPut8(f.compression, Put16(exts, f.slack));
    TakeUndoesPut16(f.suites, Put8(f.compression, Put16(exts, f.slack)));
    TakeUndoesPut8(f.session, Put16(f.suites, Put8(f.compression, Put16(exts, f.slack))));
  }

  lemma {:induction false} VectorsAreWritten(b: Bytes, f: Frame) returns (g: Frame, exts: Bytes16)
    requires BlockAfterRandom(b).Block?
    ensures exts == BlockAfterRandom(b).exts && Vectors(g, exts) == b
    ensures g == f.(session := g.session, suites := g.suites, compression := g.compression, slack := g.slack)
  {
    hide Put8, Put16;
    var session := Take8(b);
    var suites := Take16(session.rest);
    var compression := Take8(suites.rest);
    var block := Take16(compression.rest);
    exts := block.value;
    g := f.(session := session.value, suites := suites.value, compression := compression.value, slack := block.rest);
  }

  lemma {:induction false} HelloIsRead(f: Frame, exts: Bytes16)
    requires Fits(f, exts)
    ensures BlockOfHello(HelloBody(f, exts)) == Block(exts)
  {
    hide Put8, Put16, BlockAfterRandom;
    var body := HelloBody(f, exts);
    assert body[1..4] == PutU24(f.msgLen);
    assert U24(body, 1) == U24(body[1..4], 0);
    assert body[38..] == Vectors(f, exts);
    VectorsAreRead(f, exts);
  }

  lemma {:induction false} HelloIsWritten(rest: Bytes, f: Frame) returns (g: Frame, exts: Bytes16)
    requires BlockOfHello(rest).Block?
    ensures exts == BlockOfHello(rest).exts && 34 <= g.msgLen < 0x100_0000 && 4 + g.msgLen <= |rest|
    ensures |g.opening| == 34 && HelloBody(g, exts) == rest
    ensures g.version == f.version && g.tail == f.tail
  {
    hide Put8, Put16, BlockAfterRandom;
    hide PutU24;
    U24IsWritten(rest);
    g, exts := VectorsAreWritten(rest[38..], f.(msgLen := U24(rest, 1), opening := rest[4..38]));
    assert rest[..1] == [1];
    assert rest == rest[..1] + rest[1..4] + rest[4..38] + rest[38..];
  }

  lemma {:induction false} U24IsWritten(b: Bytes)
    requires |b| >= 4
    ensures U24(b, 1) < 0x100_0000 && PutU24(U24(b, 1)) == b[1..4]
  {
    var x, y, z := b[1] as int, b[2] as int, b[3] as int;
    assert (x * 0x1_0000 + y * 0x100 + z) / 0x100 == x * 0x100 + y;
  }

  lemma {:induction false} RecordIsRead(f: Frame, exts: Bytes16)
    requires Fits(f, exts)
    ensures BlockOf(WriteRecord(f, exts)) == Block(exts)
  {
    hide HelloBody, BlockOfHello;
    var body := HelloBody(f, exts);
    var data := WriteRecord(f, exts);
    assert data[3..] == Put16(body, f.tail);
    assert data[3..5] == PutU16(|body|);
    assert U16(data, 3) == U16(data[3..5], 0);
    assert data[5..5 + |body|] == body;
    HelloIsRead(f, exts);
  }

  lemma {:induction false} RecordIsWritten(data: Bytes) returns (f: Frame, exts: Bytes16)
    requires BlockOf(data).Block?
    ensures exts == BlockOf(data).exts && Fits(f, exts) && WriteRecord(f, exts) == data
  {
    hide HelloBody, BlockOfHello;
    var n: nat := U16(data, 3);
    var rest := data[5..5 + n];
    f, exts := HelloIsWritten(rest, Frame(data[1..3], 0, [], [], [], [], [], data[5 + n..]));
    assert data[3..5] == PutU16(n);
    assert data == data[..1] + data[1..3] + data[3..5] + rest + data[5 + n..];
  }

  // ---------------------------------------------------------------- names

  /** A name that is no non-empty host name. */
  predicate Skipped(name: Name) {
    name.kind != 0 || name.text == []
  }

  ghost predicate AllSkipped(names: seq<Name>) {
    forall name <- names :: Skipped(name)
  }

  lemma {:induction false} NameIsRead(name: Name, rest: Bytes)
    ensures InNames(WriteName(name, rest)) == if Skipped(name) then InNames(rest) else Found(name.text)
  {
    hide Take16, Put16;
    TakeUndoesPut16(name.text, rest);
    assert WriteName(name, rest)[1..] == Put16(name.text, rest);
    assert |Put16(name.text, rest)| >= 2 by { Put16IsLong(name.text, rest); }
  }

  lemma {:induction false} Put16IsLong(value: Bytes16, rest: Bytes)
    ensures |Put16(value, rest)| == 2 + |value| + |rest|
  {
  }

  lemma {:induction false} NamesAreRead(names: seq<Name>, rest: Bytes)
    requires AllSkipped(names)
    ensures InNames(WriteNames(names, rest)) == InNames(rest)
    decreases |names|
  {
    hide InNames, WriteName;
    if names != [] {
      NameIsRead(names[0], WriteNames(names[1..], rest));
      NamesAreRead(names[1..], rest);
    }
  }

  /** A list of names is read up to its first non-empty host name, or up to where no whole name follows. */
  lemma {:induction false} NamesAreWritten(list: Bytes) returns (names: seq<Name>, rest: Bytes)
    ensures AllSkipped(names) && list == WriteNames(names, rest) && InNames(rest) == InNames(list)
    ensures InNames(list) == Failed(NotFound) ==> |rest| < 3
    ensures InNames(list).Found? ==>
      var text := InNames(list).name;
      text != [] && |text| < 0x1_0000 && |rest| >= 3 + |text| && rest == WriteName(Name(0, text), rest[3 + |text|..])
    decreases |list|
  {
    hide Take16, Put16;
    names, rest := [], list;
    if |list| >= 3 {
      var text := Take16(list[1..]);
      if text.Field? {
        var name := Name(list[0], text.value);
        NameIsWritten(list);
        if Skipped(name) {
          names, rest := NamesAreWritten(text.rest);
          NamesPrepend(name, names, rest);
          names := [name] + names;
        }
      }
    }
  }

  lemma {:induction false} NameIsWritten(list: Bytes)
    requires |list| >= 3 && Take16(list[1..]).Field?
    ensures var text := Take16(list[1..]);
      && |text.value| < 0x1_0000 && |text.rest| < |list|
      && |list| >= 3 + |text.value| && text.rest == list[3 + |text.value|..]
      && list == WriteName(Name(list[0], text.value), text.rest)
  {
  }

  lemma {:induction false} NamesPrepend(name: Name, names: seq<Name>, rest: Bytes)
    ensures WriteNames([name] + names, rest) == WriteName(name, WriteNames(names, rest))
  {
    assert ([name] + names)[1..] == names;
  }

  // ---------------------------------------------------------------- extensions without a name

  /** A server_name extension too short for its list, or whose list holds no non-empty host name. */
  ghost predicate Nameless(body: Bytes) {
    || |body| < 2 || U16(body, 0) > |body| - 2
    || exists names, junk, after :: EmptyList(body, names, junk, after)
  }

  ghost predicate EmptyList(body: Bytes, names: seq<Name>, junk: Bytes, after: Bytes) {
    && AllSkipped(names) && |junk| < 3 && |WriteNames(names, junk)| < 0x1_0000
    && body == Put16(WriteNames(names, junk), after)
  }

  lemma {:induction false} NamelessIff(body: Bytes)
    ensures Nameless(body) <==> InBody(body) == Failed(NotFound)
  {
    hide Put16;
    forall names, junk, after | EmptyList(body, names, junk, after) ensures InBody(body) == Failed(NotFound) {
      TakeUndoesPut16(WriteNames(names, junk), after);
      NamesAreRead(names, junk);
    }
    var list := Take16(body);
    if list.Field? && InNames(list.value) == Failed(NotFound) {
      var names, junk := NamesAreWritten(list.value);
      assert EmptyList(body, names, junk, list.rest);
    }
  }

  ghost predicate Barren(ext: Ext) {
    ext.kind != 0 || Nameless(ext.body)
  }

  lemma {:induction false} ExtIsRead(ext: Ext, rest: Bytes)
    ensures var here := InExtension(ext.kind, ext.body);
      InExtensions(WriteExt(ext, rest)) == if here == Failed(NotFound) then InExtensions(rest) else here
  {
    hide Take16, Put16, InExtension;
    TakeUndoesPut16(ext.body, rest);
    var b := WriteExt(ext, rest);
    assert b[..2] == PutU16(ext.kind) && b[2..] == Put16(ext.body, rest);
    assert U16(b, 0) == U16(b[..2], 0);
    assert |b| >= 4 by { Put16IsLong(ext.body, rest); }
  }

  lemma {:induction false} ExtsAreRead(exts: seq<Ext>, rest: Bytes)
    requires forall e <- exts :: Barren(e)
    ensures InExtensions(WriteExts(exts, rest)) == InExtensions(rest)
    decreases |exts|
  {
    hide InExtensions, WriteExt, InBody, Nameless;
    if exts != [] {
      assert Barren(exts[0]);
      NamelessIff(exts[0].body);
      ExtIsRead(exts[0], WriteExts(exts[1..], rest));
      ExtsAreRead(exts[1..], rest);
    }
  }

  lemma {:induction false} ExtsPrepend(ext: Ext, exts: seq<Ext>, rest: Bytes)
    ensures WriteExts([ext] + exts, rest) == WriteExt(ext, WriteExts(exts, rest))
  {
    assert ([ext] + exts)[1..] == exts;
  }

  /** The extension block in which a name is found: barren ones, and then the one with the name. */
  lemma {:induction false} ExtsAreWritten(block: Bytes) returns (exts: seq<Ext>, body: Bytes16, rest: Bytes)
    requires InExtensions(block).Found?
    ensures (forall e <- exts :: Barren(e)) && block == WriteExts(exts, WriteExt(Ext(0, body), rest))
    ensures InBody(body) == InExtensions(block)
    decreases |block|
  {
    hide InBody, Nameless, Put16;
    var taken := Take16(block[2..]);
    var ext := Ext(U16(block, 0), taken.value);
    assert block[..2] == PutU16(ext.kind);
    assert block == WriteExt(ext, taken.rest) by { assert block == block[..2] + block[2..]; }
    NamelessIff(ext.body);
    if InExtension(ext.kind, ext.body) == Failed(NotFound) {
      exts, body, rest := ExtsAreWritten(taken.rest);
      ExtsPrepend(ext, exts, WriteExt(Ext(0, body), rest));
      exts := [ext] + exts;
    } else {
      exts, body, rest := [], taken.value, taken.rest;
    }
  }

  // ---------------------------------------------------------------- found if and only if written

  /** Everything a writer chooses: the frame, extensions without a host name, names passed over, the name
      itself, and whatever stands after the name, after its list, and after its extension. */
  datatype Hello = Hello(frame: Frame, before: seq<Ext>, skipped: seq<Name>, name: Bytes16,
                         afterName: Bytes, afterList: Bytes, afterExt: Bytes)

  function HostList(h: Hello): Bytes {
    WriteNames(h.skipped, WriteName(Name(0, h.name), h.afterName))
  }

  function HostBody(h: Hello): Bytes
    requires |HostList(h)| < 0x1_0000
  {
    Put16(HostList(h), h.afterList)
  }

  function Extensions(h: Hello): Bytes
    requires |HostList(h)| < 0x1_0000 && |HostBody(h)| < 0x1_0000
  {
    WriteExts(h.before, WriteExt(Ext(0, HostBody(h)), h.afterExt))
  }

  ghost predicate Proper(h: Hello) {
    && h.name != [] && AllSkipped(h.skipped) && (forall e <- h.before :: Barren(e))
    && |HostList(h)| < 0x1_0000 && |HostBody(h)| < 0x1_0000 && |Extensions(h)| < 0x1_0000
    && Fits(h.frame, Extensions(h))
  }

  ghost function Write(h: Hello): Bytes
    requires Proper(h)
  {
    WriteRecord(h.frame, Extensions(h))
  }

  lemma {:induction false} WrittenIsFound(h: Hello)
    requires Proper(h)
    ensures NameIn(Write(h)) == Found(h.name)
  {
    hide WriteRecord, BlockOf, InExtensions, InNames, WriteExt, WriteName, Barren, Put16, Take16;
    RecordIsRead(h.frame, Extensions(h));
    ExtsAreRead(h.before, WriteExt(Ext(0, HostBody(h)), h.afterExt));
    ExtIsRead(Ext(0, HostBody(h)), h.afterExt);
    TakeUndoesPut16(HostList(h), h.afterList);
    NamesAreRead(h.skipped, WriteName(Name(0, h.name), h.afterName));
    NameIsRead(Name(0, h.name), h.afterName);
  }

  lemma {:induction false} FoundIsWritten(data: Bytes) returns (h: Hello)
    requires NameIn(data).Found?
    ensures Proper(h) && Write(h) == data && Found(h.name) == NameIn(data)
  {
    hide WriteRecord, BlockOf, InExtensions, InNames, WriteExt, WriteName, Barren, Put16, Fits;
    var frame, exts := RecordIsWritten(data);
    var before, body, afterExt := ExtsAreWritten(exts);
    var list := Take16(body);
    var skipped, rest := NamesAreWritten(list.value);
    var name := NameIn(data).name;
    h := Hello(frame, before, skipped, name, rest[3 + |name|..], list.rest, afterExt);
    assert HostList(h) == list.value && HostBody(h) == body && Extensions(h) == exts;
  }

  /** The parser finds a name exactly in the records that can be written with that name first. */
  lemma {:induction false} FoundIffWritten(data: Bytes, name: Bytes)
    ensures NameIn(data) == Found(name) <==> exists h :: Proper(h) && h.name == name && Write(h) == data
  {
    hide Proper, Write, NameIn;
    forall h | Proper(h) && h.name == name && Write(h) == data ensures NameIn(data) == Found(name) {
      WrittenIsFound(h);
    }
    if NameIn(data) == Found(name) {
      var h := FoundIsWritten(data);
      assert Proper(h) && h.name == name && Write(h) == data;
    }
  }

  // ---------------------------------------------------------------- round trip

  /** An extension as a client means it. */
  datatype Extension = ServerNames(names: seq<Name>) | Other(kind: Port, body: Bytes16)

  predicate Encodable(e: Extension) {
    match e
    case ServerNames(names) => |WriteNames(names, [])| < 0x1_0000 - 2
    case Other(kind, _) => kind != 0
  }

  function Encode(exts: seq<Extension>): (r: seq<Ext>)
    requires forall e <- exts :: Encodable(e)
    ensures |r| == |exts|
  {
    seq(|exts|, i requires 0 <= i < |exts| =>
      assert Encodable(exts[i]);
      match exts[i]
      case ServerNames(names) => Ext(0, Put16(WriteNames(names, []), []))
      case Other(kind, body) => Ext(kind, body))
  }

  function FirstHost(names: seq<Name>): Option<Bytes> {
    if names == [] then None
    else if Skipped(names[0]) then FirstHost(names[1..])
    else Some(names[0].text)
  }

  function FirstName(exts: seq<Extension>): Option<Bytes> {
    if exts == [] then None
    else
      var here := if exts[0].ServerNames? then FirstHost(exts[0].names) else None;
      if here.Some? then here else FirstName(exts[1..])
  }

  function Answer(name: Option<Bytes>): Result {
    if name.Some? then Found(name.value) else Failed(NotFound)
  }

  lemma {:induction false} NamesRoundTrip(names: seq<Name>)
    ensures InNames(WriteNames(names, [])) == Answer(FirstHost(names))
    decreases |names|
  {
    hide WriteName;
    if names != [] {
      NameIsRead(names[0], WriteNames(names[1..], []));
      NamesRoundTrip(names[1..]);
    }
  }

  lemma {:induction false} ExtsRoundTrip(exts: seq<Extension>)
    requires forall e <- exts :: Encodable(e)
    ensures InExtensions(WriteExts(Encode(exts), [])) == Answer(FirstName(exts))
    decreases |exts|
  {
    hide WriteExt, InExtensions, Take16, Put16, InNames, WriteNames, FirstHost;
    if exts == [] {
      NothingFound();
    } else {
      var rest := exts[1..];
      assert Encodable(exts[0]);
      var ext := Encode(exts)[0];
      assert Encode(exts)[1..] == Encode(rest);
      ExtIsRead(ext, WriteExts(Encode(rest), []));
      ExtsRoundTrip(rest);
      if exts[0].ServerNames? {
        NamesRoundTrip(exts[0].names);
        TakeUndoesPut16(WriteNames(exts[0].names, []), []);
      }
    }
  }

  lemma {:induction false} NothingFound()
    ensures InExtensions([]) == Failed(NotFound)
  {
  }

  /** Whatever the session, the cipher suites, the compression methods and the extensions: parsing the
      written record gives the first non-empty host name, and reports that there is none otherwise. */
  lemma {:induction false} RoundTrip(f: Frame, exts: seq<Extension>)
    requires forall e <- exts :: Encodable(e)
    requires |WriteExts(Encode(exts), [])| < 0x1_0000 && Fits(f, WriteExts(Encode(exts), []))
    ensures NameIn(WriteRecord(f, WriteExts(Encode(exts), []))) == Answer(FirstName(exts))
  {
    hide WriteRecord, BlockOf, InExtensions, WriteExts, Fits, Encode, FirstName;
    RecordIsRead(f, WriteExts(Encode(exts), []));
    ExtsRoundTrip(exts);
  }

  // ---------------------------------------------------------------- only the first record

  /** Of data that starts with a whole record, nothing beyond that record is looked at. */
  lemma {:induction false} OnlyFirstRecord(data: Bytes, more: Bytes)
    requires |data| >= 5 && |data| >= 5 + U16(data, 3) as int
    ensures NameIn(data + more) == NameIn(data) == NameIn(data[..5 + U16(data, 3) as int])
  {
    hide BlockOfHello, InExtensions;
    var n: nat := U16(data, 3);
    assert (data + more)[5..5 + n] == data[5..5 + n] == data[..5 + n][5..5 + n];
  }
}
