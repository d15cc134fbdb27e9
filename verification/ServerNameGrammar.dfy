/**
 The format of a ClientHello in one record (sections 4.1.2 and 5.1 of RFC 8446, section 3 of
 RFC 6066), as a writer of the parts, and the proof that reading inverts it.
 */
module ServerNameGrammar {
  import opened Common
  import opened ByteStrings
  import opened ServerNames

  datatype Ext = Ext(kind: nat, data: Bytes)
  datatype Entry = Entry(kind: Byte, name: Bytes)

  /** Everything around the extensions; the three slacks are bytes the parser does not look at. */
  datatype Envelope = Envelope(
    minor: Byte, versionAndRandom: Bytes, session: Bytes, suites: Bytes, compression: Bytes,
    afterExts: Bytes, afterHello: Bytes)

  function Vec(w: nat, body: Bytes): (r: Bytes)
    ensures |r| == w + |body|
  {
    BigEndian(|body|, w) + body
  }

  predicate Fits(w: nat, body: Bytes) { |body| < Pow256(w) }

  function EncodeNames(es: seq<Entry>): (r: Bytes) {
    if es == [] then [] else [es[0].kind] + (Vec(2, es[0].name) + EncodeNames(es[1..]))
  }

  function EncodeExts(xs: seq<Ext>): (r: Bytes) {
    if xs == [] then [] else BigEndian(xs[0].kind, 2) + (Vec(2, xs[0].data) + EncodeExts(xs[1..]))
  }

  function Hello(e: Envelope, exts: Bytes): (r: Bytes) {
    e.versionAndRandom +
    (Vec(1, e.session) + (Vec(2, e.suites) + (Vec(1, e.compression) + (Vec(2, exts) + e.afterExts))))
  }

  /** The same, ending before the extensions. */
  function BareHello(e: Envelope): (r: Bytes) {
    e.versionAndRandom + (Vec(1, e.session) + (Vec(2, e.suites) + Vec(1, e.compression)))
  }

  function Framed(e: Envelope, hello: Bytes): (r: Bytes) { [1] + (Vec(3, hello) + e.afterHello) }

  function Handshake(e: Envelope, exts: Bytes): (r: Bytes) { Framed(e, Hello(e, exts)) }

  function Encode(e: Envelope, exts: Bytes): (r: Bytes) {
    [0x16, 3, e.minor] + Vec(2, Handshake(e, exts))
  }

  function EncodeBare(e: Envelope): (r: Bytes) {
    [0x16, 3, e.minor] + Vec(2, Framed(e, BareHello(e)))
  }

  ghost predicate BareFits(e: Envelope) {
    |e.versionAndRandom| == 34 && Fits(1, e.session) && Fits(2, e.suites) && Fits(1, e.compression) &&
    |Framed(e, BareHello(e))| <= MAX_HELLO - 5
  }

  ghost predicate EnvelopeFits(e: Envelope, exts: Bytes) {
    |e.versionAndRandom| == 34 && Fits(1, e.session) && Fits(2, e.suites) && Fits(1, e.compression) &&
    Fits(2, exts) && |Handshake(e, exts)| <= MAX_HELLO - 5
  }

  /** No extension before is a server_name, and none of the names ahead is a host_name. */
  ghost predicate OtherExts(xs: seq<Ext>) {
    forall i :: 0 <= i < |xs| ==> 0 < xs[i].kind < 0x1_0000 && Fits(2, xs[i].data)
  }

  ghost predicate OtherNames(es: seq<Entry>) {
    forall i :: 0 <= i < |es| ==> es[i].kind != 0 && Fits(2, es[i].name)
  }

  // ------------------------------------------------------------ vectors

  lemma VecReadsBack(w: nat, body: Bytes, rest: Bytes)
    requires Fits(w, body)
    ensures TakeVec(Vec(w, body) + rest, w) == Some((body, rest))
  {
    var p := Vec(w, body) + rest;
    BigEndianInverse(|body|, w);
    assert p[..w] == BigEndian(|body|, w);
    assert p[w..w + |body|] == body && p[w + |body|..] == rest;
  }

  lemma TakenVecWasWritten(p: Bytes, w: nat)
    requires TakeVec(p, w).Some?
    ensures Fits(w, TakeVec(p, w).value.0) && p == Vec(w, TakeVec(p, w).value.0) + TakeVec(p, w).value.1
  {
    FromBigEndianInverse(p[..w]);
    var n := FromBigEndian(p[..w]);
    assert p == p[..w] + p[w..w + n] + p[w + n..];
  }

  // ------------------------------------------------------------ what the loops skip

  lemma Regroup(a: Bytes, b: Bytes, c: Bytes, d: Bytes)
    ensures (a + (b + c)) + d == a + (b + (c + d))
  {
  }

  lemma DropFirst(a: Bytes, b: Bytes)
    ensures (a + b)[..|a|] == a && (a + b)[|a|..] == b
  {
  }

  lemma HostStep(kind: Byte, name: Bytes, next: Bytes)
    requires Fits(2, name)
    ensures HostIn([kind] + (Vec(2, name) + next)) ==
            if kind != 0 then HostIn(next) else if name == [] then Malformed else Name(name)
  {
    DropFirst([kind], Vec(2, name) + next);
    VecReadsBack(2, name, next);
  }

  lemma {:induction false} OtherNamesAreSkipped(es: seq<Entry>, rest: Bytes)
    requires OtherNames(es)
    ensures HostIn(EncodeNames(es) + rest) == HostIn(rest)
  {
    if es == [] {
      assert EncodeNames(es) + rest == rest;
    } else {
      Regroup([es[0].kind], Vec(2, es[0].name), EncodeNames(es[1..]), rest);
      HostStep(es[0].kind, es[0].name, EncodeNames(es[1..]) + rest);
      OtherNamesAreSkipped(es[1..], rest);
    }
  }

  lemma ExtStep(kind: nat, data: Bytes, next: Bytes)
    requires kind < 0x1_0000 && Fits(2, data)
    ensures NameIn(BigEndian(kind, 2) + (Vec(2, data) + next)) == if kind != 0 then NameIn(next) else NameInData(data)
  {
    Widths();
    DropFirst(BigEndian(kind, 2), Vec(2, data) + next);
    BigEndianInverse(kind, 2);
    VecReadsBack(2, data, next);
  }

  lemma {:induction false} OtherExtsAreSkipped(xs: seq<Ext>, rest: Bytes)
    requires OtherExts(xs)
    ensures NameIn(EncodeExts(xs) + rest) == NameIn(rest)
  {
    if xs == [] {
      assert EncodeExts(xs) + rest == rest;
    } else {
      Regroup(BigEndian(xs[0].kind, 2), Vec(2, xs[0].data), EncodeExts(xs[1..]), rest);
      ExtStep(xs[0].kind, xs[0].data, EncodeExts(xs[1..]) + rest);
      OtherExtsAreSkipped(xs[1..], rest);
    }
  }

  lemma MoreNames(first: Entry, es: seq<Entry>, rest: Bytes)
    ensures EncodeNames([first] + es) + rest == [first.kind] + (Vec(2, first.name) + (EncodeNames(es) + rest))
  {
    assert ([first] + es)[1..] == es;
    Regroup([first.kind], Vec(2, first.name), EncodeNames(es), rest);
  }

  lemma MoreExts(first: Ext, xs: seq<Ext>, rest: Bytes)
    ensures EncodeExts([first] + xs) + rest == BigEndian(first.kind, 2) + (Vec(2, first.data) + (EncodeExts(xs) + rest))
  {
    assert ([first] + xs)[1..] == xs;
    Regroup(BigEndian(first.kind, 2), Vec(2, first.data), EncodeExts(xs), rest);
  }

  /** The first name of a list, and the rest of it. */
  lemma FirstName(list: Bytes)
    requires list != [] && TakeVec(list[1..], 2).Some?
    ensures var v := TakeVec(list[1..], 2).value; Fits(2, v.0) && list == [list[0]] + (Vec(2, v.0) + v.1)
  {
    TakenVecWasWritten(list[1..], 2);
    assert list == [list[0]] + list[1..];
  }

  /** A list that yields a host name starts with other names, then that name. */
  lemma {:induction false} NamesAheadOf(list: Bytes) returns (ahead: seq<Entry>, behind: Bytes)
    requires HostIn(list).Name?
    ensures OtherNames(ahead) && HostIn(list).name != [] && Fits(2, HostIn(list).name)
    ensures list == EncodeNames(ahead) + ([0] + (Vec(2, HostIn(list).name) + behind))
    decreases |list|
  {
    var v := TakeVec(list[1..], 2).value;
    FirstName(list);
    if list[0] == 0 {
      ahead, behind := [], v.1;
      NoNames([0] + (Vec(2, v.0) + v.1));
    } else {
      var others;
      others, behind := NamesAheadOf(v.1);
      MoreNames(Entry(list[0], v.0), others, [0] + (Vec(2, HostIn(v.1).name) + behind));
      ahead := [Entry(list[0], v.0)] + others;
    }
  }

  lemma NoNames(rest: Bytes)
    ensures EncodeNames([]) + rest == rest
  {
  }

  lemma {:induction false} ExtsBefore(exts: Bytes) returns (before: seq<Ext>, data: Bytes, after: Bytes)
    requires NameIn(exts).Name?
    ensures OtherExts(before) && Fits(2, data) && NameInData(data) == NameIn(exts)
    ensures exts == EncodeExts(before) + (BigEndian(0, 2) + (Vec(2, data) + after))
    decreases |exts|
  {
    var v := TakeVec(exts[2..], 2).value;
    var kind := FromBigEndian(exts[..2]);
    TakenVecWasWritten(exts[2..], 2);
    FromBigEndianInverse(exts[..2]);
    Widths();
    assert exts == BigEndian(kind, 2) + exts[2..];
    if kind == 0 {
      before, data, after := [], v.0, v.1;
    } else {
      var others;
      others, data, after := ExtsBefore(v.1);
      MoreExts(Ext(kind, v.0), others, BigEndian(0, 2) + (Vec(2, data) + after));
      before := [Ext(kind, v.0)] + others;
    }
  }

  lemma OneMoreName(first: Entry, es: seq<Entry>)
    ensures EncodeNames([first] + es) == [first.kind] + (Vec(2, first.name) + EncodeNames(es))
  {
    assert ([first] + es)[1..] == es;
  }

  lemma OneMoreExt(first: Ext, xs: seq<Ext>)
    ensures EncodeExts([first] + xs) == BigEndian(first.kind, 2) + (Vec(2, first.data) + EncodeExts(xs))
  {
    assert ([first] + xs)[1..] == xs;
  }

  /** A list without an answer is other names to its end. */
  lemma {:induction false} AllOtherNames(list: Bytes) returns (es: seq<Entry>)
    requires HostIn(list).NoServerName?
    ensures OtherNames(es) && list == EncodeNames(es)
    decreases |list|
  {
    es := [];
    if list != [] {
      var v := TakeVec(list[1..], 2).value;
      FirstName(list);
      var others := AllOtherNames(v.1);
      es := [Entry(list[0], v.0)] + others;
      OneMoreName(Entry(list[0], v.0), others);
    }
  }

  /** Extensions without an answer: none is a server_name, or the first one has none. */
  lemma {:induction false} ExtsWithout(exts: Bytes) returns (before: seq<Ext>, data: Option<Bytes>, after: Bytes)
    requires NameIn(exts).NoServerName?
    ensures OtherExts(before)
    ensures
      if data.None? then exts == EncodeExts(before)
      else Fits(2, data.value) && NameInData(data.value).NoServerName? &&
           exts == EncodeExts(before) + (BigEndian(0, 2) + (Vec(2, data.value) + after))
    decreases |exts|
  {
    before, data, after := [], None, [];
    if exts != [] {
      var v := TakeVec(exts[2..], 2).value;
      var kind := FromBigEndian(exts[..2]);
      TakenVecWasWritten(exts[2..], 2);
      FromBigEndianInverse(exts[..2]);
      Widths();
      assert exts == BigEndian(kind, 2) + exts[2..];
      if kind == 0 {
        data, after := Some(v.0), v.1;
      } else {
        var others;
        others, data, after := ExtsWithout(v.1);
        before := [Ext(kind, v.0)] + others;
        if data.None? {
          OneMoreExt(Ext(kind, v.0), others);
        } else {
          MoreExts(Ext(kind, v.0), others, BigEndian(0, 2) + (Vec(2, data.value) + after));
        }
      }
    }
  }

  // ------------------------------------------------------------ the envelope

  lemma HelloReads(e: Envelope, exts: Bytes)
    requires EnvelopeFits(e, exts)
    ensures NameInHello(Hello(e, exts)) == NameIn(exts)
  {
    var p := Hello(e, exts);
    var p3 := Vec(2, exts) + e.afterExts;
    var p2 := Vec(1, e.compression) + p3;
    var p1 := Vec(2, e.suites) + p2;
    assert p[34..] == Vec(1, e.session) + p1;
    VecReadsBack(1, e.session, p1);
    VecReadsBack(2, e.suites, p2);
    VecReadsBack(1, e.compression, p3);
    VecReadsBack(2, exts, e.afterExts);
    ThreeVecs(p[34..], e.session, p1, e.suites, p2, e.compression, p3);
  }

  lemma ThreeVecs(p: Bytes, a: Bytes, p1: Bytes, b: Bytes, p2: Bytes, c: Bytes, p3: Bytes)
    requires TakeVec(p, 1) == Some((a, p1)) && TakeVec(p1, 2) == Some((b, p2)) && TakeVec(p2, 1) == Some((c, p3))
    ensures SkipVecs(p, [1, 2, 1]) == Some(p3)
  {
    assert [1, 2, 1][1..] == [2, 1] && [2, 1][1..] == [1] && [1][1..] == [];
    assert SkipVecs(p2, [1]) == Some(p3);
    assert SkipVecs(p1, [2, 1]) == Some(p3);
  }

  lemma HandshakeReads(hello: Bytes, after: Bytes)
    requires |hello| < 0x100_0000
    ensures NameInRecord([1] + (Vec(3, hello) + after)) == NameInHello(hello)
  {
    Widths();
    BigEndianInverse(|hello|, 3);
    var rec := [1] + (Vec(3, hello) + after);
    Parts3([1], BigEndian(|hello|, 3), hello, after);
    assert rec[0] == rec[..1][0] == 1;
    assert rec[1..4] == BigEndian(|hello|, 3) && rec[4..4 + |hello|] == hello;
  }

  lemma RecordReads(minor: Byte, rec: Bytes, more: Bytes)
    requires |rec| <= MAX_HELLO - 5
    ensures ServerName(([0x16, 3, minor] + Vec(2, rec)) + more) == NameInRecord(rec)
  {
    var head: Bytes := [0x16, 3, minor];
    Widths();
    BigEndianInverse(|rec|, 2);
    Parts3(head, BigEndian(|rec|, 2), rec, more);
    var b := (head + Vec(2, rec)) + more;
    assert b == head + (Vec(2, rec) + more);
    assert b[0] == b[..3][0] && b[1] == b[..3][1];
  }

  /** Where the parts of a length-prefixed string lie. */
  lemma Parts3(a: Bytes, b: Bytes, c: Bytes, d: Bytes)
    ensures
      var r := a + ((b + c) + d);
      |r| == |a| + |b| + |c| + |d| && r[..|a|] == a && r[|a|..|a| + |b|] == b && r[|a| + |b|..|a| + |b| + |c|] == c
  {
    var r := a + ((b + c) + d);
    DropFirst(a, (b + c) + d);
    DropFirst(b + c, d);
    DropFirst(b, c);
    assert r[|a|..|a| + |b|] == ((b + c) + d)[..|b|] == (b + c)[..|b|];
    assert r[|a| + |b|..|a| + |b| + |c|] == ((b + c) + d)[|b|..|b| + |c|] == (b + c)[|b|..];
  }

  /** A ClientHello in one record is answered from its extensions, whatever follows the record. */
  lemma EnvelopeReads(e: Envelope, exts: Bytes, more: Bytes)
    requires EnvelopeFits(e, exts)
    ensures ServerName(Encode(e, exts) + more) == NameIn(exts)
  {
    RecordReads(e.minor, Handshake(e, exts), more);
    HandshakeReads(Hello(e, exts), e.afterHello);
    HelloReads(e, exts);
  }

  /** Three vectors that were skipped, one after the other. */
  lemma SkippedVecs(p: Bytes)
    requires SkipVecs(p, [1, 2, 1]).Some?
    ensures TakeVec(p, 1).Some? && TakeVec(TakeVec(p, 1).value.1, 2).Some?
    ensures TakeVec(TakeVec(TakeVec(p, 1).value.1, 2).value.1, 1).Some?
    ensures SkipVecs(p, [1, 2, 1]).value == TakeVec(TakeVec(TakeVec(p, 1).value.1, 2).value.1, 1).value.1
  {
    assert [1, 2, 1][1..] == [2, 1] && [2, 1][1..] == [1] && [1][1..] == [];
    var p1 := TakeVec(p, 1).value.1;
    assert SkipVecs(p, [1, 2, 1]) == SkipVecs(p1, [2, 1]);
    var p2 := TakeVec(p1, 2).value.1;
    assert SkipVecs(p1, [2, 1]) == SkipVecs(p2, [1]);
  }

  /** The message was read to its end: a name, or none. */
  predicate Read(r: Answer) { r.Name? || r.NoServerName? }

  /** A ClientHello that ends before its extensions. */
  predicate Bare(p: Bytes) { |p| >= 34 && SkipVecs(p[34..], [1, 2, 1]) == Some([]) }

  lemma HelloOf(p: Bytes, minor: Byte, afterHello: Bytes) returns (e: Envelope, exts: Bytes)
    requires Read(NameInHello(p))
    ensures e.minor == minor && e.afterHello == afterHello
    ensures |e.versionAndRandom| == 34 && Fits(1, e.session) && Fits(2, e.suites) && Fits(1, e.compression)
    ensures
      if Bare(p) then p == BareHello(e) else p == Hello(e, exts) && Fits(2, exts) && NameIn(exts) == NameInHello(p)
  {
    var rest;
    e, rest := FrontOf(p, minor, afterHello);
    exts := [];
    if rest == [] {
      FrontAlone(e);
    } else {
      var x := TakeVec(rest, 2).value;
      TakenVecWasWritten(rest, 2);
      e, exts := e.(afterExts := x.1), x.0;
    }
  }

  /** All of a ClientHello up to its extensions. */
  function Front(e: Envelope, rest: Bytes): (r: Bytes) {
    e.versionAndRandom + (Vec(1, e.session) + (Vec(2, e.suites) + (Vec(1, e.compression) + rest)))
  }

  lemma FrontAlone(e: Envelope)
    ensures Front(e, []) == BareHello(e)
  {
    assert Vec(1, e.compression) + [] == Vec(1, e.compression);
  }

  lemma FrontOf(p: Bytes, minor: Byte, afterHello: Bytes) returns (e: Envelope, rest: Bytes)
    requires |p| >= 34 && SkipVecs(p[34..], [1, 2, 1]).Some?
    ensures e.minor == minor && e.afterHello == afterHello && rest == SkipVecs(p[34..], [1, 2, 1]).value
    ensures |e.versionAndRandom| == 34 && Fits(1, e.session) && Fits(2, e.suites) && Fits(1, e.compression)
    ensures p == Front(e, rest)
  {
    SkippedVecs(p[34..]);
    var a := TakeVec(p[34..], 1).value;
    var b := TakeVec(a.1, 2).value;
    var c := TakeVec(b.1, 1).value;
    TakenVecWasWritten(p[34..], 1);
    TakenVecWasWritten(a.1, 2);
    TakenVecWasWritten(b.1, 1);
    e, rest := Envelope(minor, p[..34], a.0, b.0, c.0, [], afterHello), c.1;
    assert p == p[..34] + p[34..];
  }

  lemma RecordSplits(rec: Bytes, m: nat)
    requires 4 + m <= |rec|
    ensures rec == [rec[0]] + ((rec[1..4] + rec[4..4 + m]) + rec[4 + m..])
  {
  }

  lemma StreamSplits(b: Bytes, n: nat)
    requires 5 + n <= |b|
    ensures b == ([b[0], b[1], b[2]] + (b[3..5] + b[5..5 + n])) + b[5 + n..]
  {
  }

  /** The ClientHello of a record. */
  function HelloIn(rec: Bytes): (p: Bytes)
    requires |rec| >= 4 && FromBigEndian(rec[1..4]) <= |rec| - 4
  {
    rec[4..4 + FromBigEndian(rec[1..4])]
  }

  lemma HandshakeOf(rec: Bytes, minor: Byte) returns (e: Envelope, exts: Bytes)
    requires Read(NameInRecord(rec))
    ensures e.minor == minor
    ensures |e.versionAndRandom| == 34 && Fits(1, e.session) && Fits(2, e.suites) && Fits(1, e.compression)
    ensures
      if Bare(HelloIn(rec)) then rec == Framed(e, BareHello(e))
      else rec == Handshake(e, exts) && Fits(2, exts) && NameIn(exts) == NameInRecord(rec)
  {
    var m := FromBigEndian(rec[1..4]);
    e, exts := HelloOf(rec[4..4 + m], minor, rec[4 + m..]);
    FromBigEndianInverse(rec[1..4]);
    RecordSplits(rec, m);
  }

  /** Bytes that yield a name start with a record. */
  lemma RecordRebuilds(b: Bytes)
    requires |b| >= 5 && b[0] == 0x16 && b[1] == 3 && 5 + RecordLength(b) <= |b|
    ensures var n := RecordLength(b); b == ([0x16, 3, b[2]] + Vec(2, b[5..5 + n])) + b[5 + n..]
  {
    FromBigEndianInverse(b[3..5]);
    StreamSplits(b, RecordLength(b));
  }

  /** Bytes that are read to the end are such a ClientHello and what follows it. */
  lemma EnvelopeOf(b: Bytes) returns (e: Envelope, exts: Bytes, more: Bytes)
    requires Read(ServerName(b))
    ensures
      if Bare(HelloIn(b[5..5 + RecordLength(b)])) then BareFits(e) && b == EncodeBare(e) + more
      else EnvelopeFits(e, exts) && b == Encode(e, exts) + more && NameIn(exts) == ServerName(b)
  {
    var n := RecordLength(b);
    var rec := b[5..5 + n];
    RecordRebuilds(b);
    e, exts := HandshakeOf(rec, b[2]);
    more := b[5 + n..];
  }

  lemma BareHelloReads(e: Envelope)
    requires BareFits(e)
    ensures NameInHello(BareHello(e)) == NoServerName && Bare(BareHello(e))
  {
    var p := BareHello(e);
    var p2 := Vec(1, e.compression);
    var p1 := Vec(2, e.suites) + p2;
    assert p[34..] == Vec(1, e.session) + p1 && p2 == p2 + [];
    VecReadsBack(1, e.session, p1);
    VecReadsBack(2, e.suites, p2);
    VecReadsBack(1, e.compression, []);
    ThreeVecs(p[34..], e.session, p1, e.suites, p2, e.compression, []);
  }

  // ------------------------------------------------------------ the whole message

  /** All the parts of a ClientHello around its first host name. */
  datatype Parts = Parts(e: Envelope, before: seq<Ext>, ahead: seq<Entry>, behind: Bytes, slack: Bytes, after: Bytes,
                         more: Bytes)

  function NameList(p: Parts, name: Bytes): (r: Bytes) {
    EncodeNames(p.ahead) + ([0] + (Vec(2, name) + p.behind))
  }

  function ServerNameData(p: Parts, name: Bytes): (r: Bytes) {
    Vec(2, NameList(p, name)) + p.slack
  }

  function Extensions(p: Parts, name: Bytes): (r: Bytes) {
    EncodeExts(p.before) + (BigEndian(0, 2) + (Vec(2, ServerNameData(p, name)) + p.after))
  }

  /** The bytes of a ClientHello whose first server_name extension has `name` as its first host_name. */
  function Spell(p: Parts, name: Bytes): (r: Bytes) {
    Encode(p.e, Extensions(p, name)) + p.more
  }

  ghost predicate WellFormed(p: Parts, name: Bytes) {
    OtherExts(p.before) && OtherNames(p.ahead) && Fits(2, name) && Fits(2, NameList(p, name)) &&
    Fits(2, ServerNameData(p, name)) && EnvelopeFits(p.e, Extensions(p, name))
  }

  /** Every well-formed ClientHello is answered with that name; an empty one is refused. */
  lemma FirstHostNameIsRead(p: Parts, name: Bytes)
    requires WellFormed(p, name)
    ensures ServerName(Spell(p, name)) == if name == [] then Malformed else Name(name)
  {
    EnvelopeReads(p.e, Extensions(p, name), p.more);
    OtherExtsAreSkipped(p.before, BigEndian(0, 2) + (Vec(2, ServerNameData(p, name)) + p.after));
    ExtStep(0, ServerNameData(p, name), p.after);
    VecReadsBack(2, NameList(p, name), p.slack);
    OtherNamesAreSkipped(p.ahead, [0] + (Vec(2, name) + p.behind));
    HostStep(0, name, p.behind);
  }

  lemma PartsOf(b: Bytes) returns (p: Parts)
    requires ServerName(b).Name?
    ensures var name := ServerName(b).name; name != [] && WellFormed(p, name) && b == Spell(p, name)
  {
    var e, exts, more := EnvelopeOf(b);
    var before, data, after := ExtsBefore(exts);
    TakenVecWasWritten(data, 2);
    var list, slack := TakeVec(data, 2).value.0, TakeVec(data, 2).value.1;
    var ahead, behind := NamesAheadOf(list);
    p := Parts(e, before, ahead, behind, slack, after, more);
  }

  /** The parser returns a name exactly for the bytes of a ClientHello with that first host name. */
  lemma NameExactly(b: Bytes, name: Bytes)
    ensures ServerName(b) == Name(name) <==> name != [] && exists p :: WellFormed(p, name) && b == Spell(p, name)
  {
    if ServerName(b) == Name(name) {
      var p := PartsOf(b);
      assert WellFormed(p, name) && b == Spell(p, name);
    } else if p :| WellFormed(p, name) && b == Spell(p, name) {
      FirstHostNameIsRead(p, name);
    }
  }

  /** Without a server_name extension there is no name. */
  lemma NoExtensionNoAnswer(e: Envelope, xs: seq<Ext>, more: Bytes)
    requires OtherExts(xs) && EnvelopeFits(e, EncodeExts(xs))
    ensures ServerName(Encode(e, EncodeExts(xs)) + more) == NoServerName
  {
    assert EncodeExts(xs) + [] == EncodeExts(xs);
    OtherExtsAreSkipped(xs, []);
    EnvelopeReads(e, EncodeExts(xs), more);
  }

  /** Nor when the first server_name extension names no host, whatever the later ones say. */
  lemma NoHostNameNoAnswer(e: Envelope, before: seq<Ext>, es: seq<Entry>, slack: Bytes, after: Bytes, more: Bytes)
    requires OtherExts(before) && OtherNames(es)
    requires Fits(2, EncodeNames(es)) && Fits(2, Vec(2, EncodeNames(es)) + slack)
    requires EnvelopeFits(e, EncodeExts(before) + (BigEndian(0, 2) + (Vec(2, Vec(2, EncodeNames(es)) + slack) + after)))
    ensures
      var exts := EncodeExts(before) + (BigEndian(0, 2) + (Vec(2, Vec(2, EncodeNames(es)) + slack) + after));
      ServerName(Encode(e, exts) + more) == NoServerName
  {
    var data := Vec(2, EncodeNames(es)) + slack;
    var rest := BigEndian(0, 2) + (Vec(2, data) + after);
    EnvelopeReads(e, EncodeExts(before) + rest, more);
    OtherExtsAreSkipped(before, rest);
    ExtStep(0, data, after);
    VecReadsBack(2, EncodeNames(es), slack);
    assert EncodeNames(es) + [] == EncodeNames(es);
    OtherNamesAreSkipped(es, []);
  }

  // ------------------------------------------------------------ exactly when there is no name

  /** A ClientHello with no extensions, with none that is a server_name, or whose first one names no host. */
  datatype Nameless =
    | NoBlock(e: Envelope, more: Bytes)
    | NoExt(e: Envelope, xs: seq<Ext>, more: Bytes)
    | NoHost(e: Envelope, before: seq<Ext>, es: seq<Entry>, slack: Bytes, after: Bytes, more: Bytes)

  function HostlessExts(before: seq<Ext>, es: seq<Entry>, slack: Bytes, after: Bytes): (r: Bytes) {
    EncodeExts(before) + (BigEndian(0, 2) + (Vec(2, Vec(2, EncodeNames(es)) + slack) + after))
  }

  function SpellNameless(p: Nameless): (r: Bytes) {
    match p
    case NoBlock(e, more) => EncodeBare(e) + more
    case NoExt(e, xs, more) => Encode(e, EncodeExts(xs)) + more
    case NoHost(e, before, es, slack, after, more) => Encode(e, HostlessExts(before, es, slack, after)) + more
  }

  ghost predicate NamelessFits(p: Nameless) {
    match p
    case NoBlock(e, _) => BareFits(e)
    case NoExt(e, xs, _) => OtherExts(xs) && EnvelopeFits(e, EncodeExts(xs))
    case NoHost(e, before, es, slack, after, _) =>
      OtherExts(before) && OtherNames(es) && Fits(2, EncodeNames(es)) && Fits(2, Vec(2, EncodeNames(es)) + slack) &&
      EnvelopeFits(e, HostlessExts(before, es, slack, after))
  }

  lemma NamelessIsRead(p: Nameless)
    requires NamelessFits(p)
    ensures ServerName(SpellNameless(p)) == NoServerName
  {
    match p
    case NoBlock(e, more) =>
      RecordReads(e.minor, Framed(e, BareHello(e)), more);
      HandshakeReads(BareHello(e), e.afterHello);
      BareHelloReads(e);
    case NoExt(e, xs, more) => NoExtensionNoAnswer(e, xs, more);
    case NoHost(e, before, es, slack, after, more) => NoHostNameNoAnswer(e, before, es, slack, after, more);
  }

  lemma NamelessOf(b: Bytes) returns (p: Nameless)
    requires ServerName(b) == NoServerName
    ensures NamelessFits(p) && b == SpellNameless(p)
  {
    var e, exts, more := EnvelopeOf(b);
    if Bare(HelloIn(b[5..5 + RecordLength(b)])) {
      p := NoBlock(e, more);
    } else {
      var before, data, after := ExtsWithout(exts);
      if data.None? {
        p := NoExt(e, before, more);
      } else {
        TakenVecWasWritten(data.value, 2);
        var es := AllOtherNames(TakeVec(data.value, 2).value.0);
        p := NoHost(e, before, es, TakeVec(data.value, 2).value.1, after, more);
      }
    }
  }

  /** The parser says there is no name exactly for the bytes of a ClientHello without one. */
  lemma NoNameExactly(b: Bytes)
    ensures ServerName(b) == NoServerName <==> exists p :: NamelessFits(p) && b == SpellNameless(p)
  {
    if ServerName(b) == NoServerName {
      var p := NamelessOf(b);
      assert NamelessFits(p) && b == SpellNameless(p);
    } else if p :| NamelessFits(p) && b == SpellNameless(p) {
      NamelessIsRead(p);
    }
  }

  /** One whole record that does not start a ClientHello, and what follows it. */
  predicate OtherRecord(b: Bytes, minor: Byte, rec: Bytes, more: Bytes) {
    |rec| <= MAX_HELLO - 5 && (|rec| < 4 || rec[0] != 1) && b == ([0x16, 3, minor] + Vec(2, rec)) + more
  }

  /**
   It says the bytes are not TLS exactly if they do not start like a handshake record, or are a
   record that does not start a ClientHello. What is neither this, short, nor read is malformed.
   */
  lemma NotTLSExactly(b: Bytes)
    ensures ServerName(b) == NotTLS <==>
      (b != [] && b[0] != 0x16) || (|b| >= 5 && b[1] != 3) ||
      exists minor, rec, more :: OtherRecord(b, minor, rec, more)
  {
    if ServerName(b) == NotTLS {
      if b != [] && b[0] == 0x16 && !(|b| >= 5 && b[1] != 3) {
        OtherRecordOf(b);
      }
    } else if minor, rec, more :| OtherRecord(b, minor, rec, more) {
      RecordReads(minor, rec, more);
    }
  }

  lemma OtherRecordOf(b: Bytes)
    requires ServerName(b) == NotTLS && |b| >= 5 && b[0] == 0x16 && b[1] == 3
    ensures exists minor, rec, more :: OtherRecord(b, minor, rec, more)
  {
    var n := RecordLength(b);
    var rec := b[5..5 + n];
    RecordRebuilds(b);
    if |rec| >= 4 && FromBigEndian(rec[1..4]) <= |rec| - 4 {
      HelloIsDecided(HelloIn(rec));
    }
    assert OtherRecord(b, b[2], rec, b[5 + n..]);
  }
}
