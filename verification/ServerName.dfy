/**
 The server name of a TLS ClientHello, read off the front of a connection. The reading functions
 follow the parser; `ServerNameGrammar` gives the message format they are proved against.
 */
module ServerNames {
  import opened Common
  import opened ByteStrings

  const MAX_HELLO: nat := 5 + 16384

  datatype Answer = Name(name: Bytes) | NotTLS | Short | Malformed | NoServerName

  /** A vector behind a big-endian length of w bytes: its contents and what follows it. */
  function TakeVec(p: Bytes, w: nat): (r: Option<(Bytes, Bytes)>)
    ensures r.Some? ==> |r.value.0| + |r.value.1| + w == |p|
  {
    if |p| < w then None else
    var n := FromBigEndian(p[..w]);
    if |p| - w < n then None else Some((p[w..w + n], p[w + n..]))
  }

  /** The first host name of a server name list. */
  function HostIn(list: Bytes): (r: Answer)
    decreases |list|
  {
    if list == [] then NoServerName else
    var v := TakeVec(list[1..], 2);
    if v.None? then Malformed
    else if list[0] == 0 then if v.value.0 == [] then Malformed else Name(v.value.0)
    else HostIn(v.value.1)
  }

  /** The answer of an extension's data when it is the first server_name. */
  function NameInData(data: Bytes): (r: Answer) {
    var l := TakeVec(data, 2);
    if l.None? then Malformed else HostIn(l.value.0)
  }

  /** The host name in the first server_name extension. */
  function NameIn(exts: Bytes): (r: Answer)
    decreases |exts|
  {
    if exts == [] then NoServerName
    else if |exts| < 2 then Malformed else
    var v := TakeVec(exts[2..], 2);
    if v.None? then Malformed
    else if FromBigEndian(exts[..2]) != 0 then NameIn(v.value.1)
    else NameInData(v.value.0)
  }

  function SkipVecs(p: Bytes, widths: seq<nat>): (r: Option<Bytes>)
    decreases |widths|
  {
    if widths == [] then Some(p) else
    var v := TakeVec(p, widths[0]);
    if v.None? then None else SkipVecs(v.value.1, widths[1..])
  }

  /** The body of a ClientHello: version and random, then three vectors, then the extensions if any. */
  function NameInHello(p: Bytes): (r: Answer) {
    if |p| < 34 then Malformed else
    var rest := SkipVecs(p[34..], [1, 2, 1]);
    if rest.None? then Malformed
    else if rest.value == [] then NoServerName else
    var exts := TakeVec(rest.value, 2);
    if exts.None? then Malformed else NameIn(exts.value.0)
  }

  function NameInRecord(rec: Bytes): (r: Answer) {
    if |rec| < 4 || rec[0] != 1 then NotTLS else
    var n := FromBigEndian(rec[1..4]);
    if n > |rec| - 4 then Malformed else NameInHello(rec[4..4 + n])
  }

  function RecordLength(b: Bytes): (n: nat)
    requires |b| >= 5
  {
    FromBigEndian(b[3..5])
  }

  function ServerName(b: Bytes): (r: Answer) {
    if |b| < 5 then if b != [] && b[0] != 0x16 then NotTLS else Short
    else if b[0] != 0x16 || b[1] != 3 then NotTLS
    else if RecordLength(b) > MAX_HELLO - 5 then Malformed
    else if |b| < 5 + RecordLength(b) then Short
    else NameInRecord(b[5..5 + RecordLength(b)])
  }

  // ------------------------------------------------------------ the parser, as it runs

  /** Reads fields off the front of `rest`, which shrinks as they are read. */
  class Parser {
    var rest: Bytes

    constructor (b: Bytes)
      ensures rest == b
    {
      rest := b;
    }

    method Skip(n: nat) returns (ok: bool)
      modifies this
      ensures ok == (n <= |old(rest)|)
      ensures rest == if ok then old(rest)[n..] else old(rest)
    {
      if |rest| < n {
        return false;
      }
      rest := rest[n..];
      return true;
    }

    method U16() returns (v: nat, ok: bool)
      modifies this
      ensures ok == (2 <= |old(rest)|)
      ensures ok ==> v == FromBigEndian(old(rest)[..2]) && rest == old(rest)[2..]
      ensures !ok ==> v == 0 && rest == old(rest)
    {
      if |rest| < 2 {
        return 0, false;
      }
      v, ok := FromBigEndian(rest[..2]), true;
      rest := rest[2..];
    }

    method Vec(w: nat) returns (v: Bytes, ok: bool)
      modifies this
      ensures ok == TakeVec(old(rest), w).Some?
      ensures ok ==> TakeVec(old(rest), w) == Some((v, rest))
    {
      if |rest| < w {
        return [], false;
      }
      var n := FromBigEndian(rest[..w]);
      rest := rest[w..];
      if |rest| < n {
        return [], false;
      }
      v, ok := rest[..n], true;
      rest := rest[n..];
      assert v == old(rest)[w..w + n] && rest == old(rest)[w + n..];
    }

    method SkipVec(w: nat) returns (ok: bool)
      modifies this
      ensures ok == TakeVec(old(rest), w).Some?
      ensures ok ==> TakeVec(old(rest), w).value.1 == rest
    {
      var v;
      v, ok := Vec(w);
    }
  }

  /** The inner loop: names of one server_name extension. */
  method ReadNames(data: Bytes) returns (r: Answer)
    ensures r == NameInData(data)
  {
    var d := new Parser(data);
    var list, ok := d.Vec(2);
    if !ok {
      return Malformed;
    }
    var names := new Parser(list);
    while names.rest != []
      invariant fresh(names) && HostIn(list) == HostIn(names.rest)
      decreases |names.rest|
    {
      var kind := names.rest[0];
      names.rest := names.rest[1..];
      var name;
      name, ok := names.Vec(2);
      if !ok {
        return Malformed;
      }
      if kind == 0 {
        if name == [] {
          return Malformed;
        }
        return Name(name);
      }
    }
    return NoServerName;
  }

  /** The outer loop: extensions up to the first server_name. */
  method ReadExtensions(exts: Bytes) returns (r: Answer)
    ensures r == NameIn(exts)
  {
    var e := new Parser(exts);
    while e.rest != []
      invariant fresh(e) && NameIn(exts) == NameIn(e.rest)
      decreases |e.rest|
    {
      var kind, ok := e.U16();
      if !ok {
        return Malformed;
      }
      var data;
      data, ok := e.Vec(2);
      if !ok {
        return Malformed;
      }
      if kind == 0 {
        r := ReadNames(data);
        return;
      }
    }
    return NoServerName;
  }

  method ReadHello(hello: Bytes) returns (r: Answer)
    ensures r == NameInHello(hello)
  {
    var p := new Parser(hello);
    var ok := p.Skip(2 + 32);
    if !ok {
      return Malformed;
    }
    ghost var rest := p.rest;
    for i := 0 to 3
      invariant fresh(p) && SkipVecs(rest, [1, 2, 1]) == SkipVecs(p.rest, [1, 2, 1][i..])
    {
      ok := p.SkipVec([1, 2, 1][i]);
      if !ok {
        return Malformed;
      }
    }
    if p.rest == [] {
      return NoServerName;
    }
    var exts;
    exts, ok := p.Vec(2);
    if !ok {
      return Malformed;
    }
    r := ReadExtensions(exts);
  }

  method ReadServerName(b: Bytes) returns (r: Answer)
    ensures r == ServerName(b)
  {
    if |b| < 5 {
      return if b != [] && b[0] != 0x16 then NotTLS else Short;
    }
    if b[0] != 0x16 || b[1] != 3 {
      return NotTLS;
    }
    var n := RecordLength(b);
    if n > MAX_HELLO - 5 {
      return Malformed;
    }
    if |b| < 5 + n {
      return Short;
    }
    var rec := b[5..5 + n];
    if |rec| < 4 || rec[0] != 1 {
      return NotTLS;
    }
    var hs := FromBigEndian(rec[1..4]);
    if hs > |rec| - 4 {
      return Malformed;
    }
    r := ReadHello(rec[4..4 + hs]);
  }

  // ------------------------------------------------------------ more bytes

  /** Any answer but Short is final: no further bytes change it. */
  lemma AnswerIsFinal(b: Bytes, more: Bytes)
    requires ServerName(b) != Short
    ensures ServerName(b + more) == ServerName(b)
  {
    if |b| < 5 {
      assert (b + more)[0] == b[0];
    } else {
      HeaderOfPrefix(b, more);
      if RecordLength(b) <= |b| - 5 {
        SliceOfPrefix(b, more, 5, 5 + RecordLength(b));
      }
    }
  }

  lemma HeaderOfPrefix(b: Bytes, more: Bytes)
    requires |b| >= 5
    ensures (b + more)[0] == b[0] && (b + more)[1] == b[1] && RecordLength(b + more) == RecordLength(b)
  {
    SliceOfPrefix(b, more, 3, 5);
  }

  lemma SliceOfPrefix(b: Bytes, more: Bytes, i: nat, j: nat)
    requires i <= j <= |b|
    ensures (b + more)[i..j] == b[i..j]
  {
  }

  /** Inside a ClientHello the bytes are TLS, and all there. */
  predicate Decided(r: Answer) { !r.Short? && !r.NotTLS? }

  lemma RecordIsNeverShort(rec: Bytes)
    ensures NameInRecord(rec) != Short
  {
    if |rec| >= 4 && FromBigEndian(rec[1..4]) <= |rec| - 4 {
      HelloIsDecided(rec[4..4 + FromBigEndian(rec[1..4])]);
    }
  }

  lemma HelloIsDecided(p: Bytes)
    ensures Decided(NameInHello(p))
  {
    if |p| >= 34 && SkipVecs(p[34..], [1, 2, 1]).Some? {
      var rest := SkipVecs(p[34..], [1, 2, 1]).value;
      if TakeVec(rest, 2).Some? {
        NameIsDecided(TakeVec(rest, 2).value.0);
      }
    }
  }

  lemma {:induction false} HostIsDecided(list: Bytes)
    ensures Decided(HostIn(list))
    decreases |list|
  {
    if list != [] && TakeVec(list[1..], 2).Some? {
      HostIsDecided(TakeVec(list[1..], 2).value.1);
    }
  }

  lemma {:induction false} NameIsDecided(exts: Bytes)
    ensures Decided(NameIn(exts))
    decreases |exts|
  {
    if |exts| >= 2 && TakeVec(exts[2..], 2).Some? {
      var v := TakeVec(exts[2..], 2).value;
      NameIsDecided(v.1);
      if TakeVec(v.0, 2).Some? {
        HostIsDecided(TakeVec(v.0, 2).value.0);
      }
    }
  }

  /** Filled up to the record its header announces, the answer is settled. */
  lemma FilledUp(b: Bytes) returns (more: Bytes)
    requires |b| >= 5
    ensures ServerName(b + more) != Short
  {
    more := seq(if |b| < 5 + RecordLength(b) then 5 + RecordLength(b) - |b| else 0, i => 0);
    HeaderOfPrefix(b, more);
    RecordIsNeverShort((b + more)[5..5 + RecordLength(b)]);
  }

  /** Whatever has arrived, some further bytes settle the answer; so Short is never final. */
  lemma ShortIsNotFinal(b: Bytes) returns (more: Bytes)
    ensures ServerName(b + more) != Short
  {
    var head: Bytes := seq(if |b| < 5 then 5 - |b| else 0, i => 0);
    var rest := FilledUp(b + head);
    more := head + rest;
    assert b + more == (b + head) + rest;
  }

  /** So the answer is Short exactly when what comes next can still change it. */
  lemma ShortExactlyWhenOpen(b: Bytes)
    ensures ServerName(b) == Short <==> exists more: Bytes :: ServerName(b + more) != ServerName(b)
  {
    if ServerName(b) == Short {
      var more := ShortIsNotFinal(b);
      assert ServerName(b + more) != ServerName(b);
    } else {
      forall more: Bytes
        ensures ServerName(b + more) == ServerName(b)
      {
        AnswerIsFinal(b, more);
      }
    }
  }

  // ------------------------------------------------------------ peeking at a connection

  /**
   Peeks at a connection on which `stream` is arriving; `arrived[k]` bytes are there at the k-th
   peek. The header is peeked at first, then the record it announces. None: the deadline passed.
   */
  method PeekServerName(stream: Bytes, arrived: seq<nat>) returns (r: Option<Answer>, size: nat)
    requires forall k :: 0 <= k < |arrived| ==> arrived[k] <= |stream|
    ensures size <= MAX_HELLO
    ensures r.Some? && r.value != Short ==> r.value == ServerName(stream)
    ensures r == Some(Short) ==> 0 in arrived
    // After a peek that saw a whole header, the next one answers if what has arrived decides it.
    ensures r.None? ==> forall k :: 0 < k < |arrived| && arrived[k - 1] >= 5 ==>
      ServerName(stream[..arrived[k]]) == Short
  {
    size := 5;
    var k := 0;
    while k < |arrived|
      invariant 0 <= k <= |arrived| && size <= MAX_HELLO
      invariant size == 5 || (|stream| >= 5 && 5 < size == 5 + RecordLength(stream))
      invariant k > 0 && arrived[k - 1] >= 5 ==> size > 5
      invariant forall j :: 0 < j < k && arrived[j - 1] >= 5 ==> ServerName(stream[..arrived[j]]) == Short
    {
      var n := if arrived[k] < size then arrived[k] else size;
      if n == 0 {
        assert arrived[k] == 0;
        return Some(Short), size;
      }
      var a := ReadServerName(stream[..n]);
      if a != Short {
        PeekIsFinal(stream, n);
        return Some(a), size;
      }
      if size > 5 {
        PeekIsShortOnlyIfRecordIs(stream, n, arrived[k]);
      } else if n == 5 {
        HeaderIsUsable(stream);
        size := 5 + RecordLength(stream[..n]);
      }
      k := k + 1;
    }
    return None, size;
  }

  lemma PeekIsFinal(stream: Bytes, n: nat)
    requires n <= |stream| && ServerName(stream[..n]) != Short
    ensures ServerName(stream) == ServerName(stream[..n])
  {
    assert stream[..n] + stream[n..] == stream;
    AnswerIsFinal(stream[..n], stream[n..]);
  }

  /** A header alone that is not refused announces a record that is neither empty nor too long. */
  lemma HeaderIsUsable(stream: Bytes)
    requires |stream| >= 5 && ServerName(stream[..5]) == Short
    ensures 0 < RecordLength(stream[..5]) <= MAX_HELLO - 5 && RecordLength(stream[..5]) == RecordLength(stream)
  {
    RecordIsNeverShort(stream[..5][5..5]);
    assert stream[..5][3..5] == stream[3..5];
  }

  lemma PeekIsShortOnlyIfRecordIs(stream: Bytes, n: nat, arrived: nat)
    requires n <= arrived <= |stream| && |stream| >= 5
    requires n == if arrived < 5 + RecordLength(stream) then arrived else 5 + RecordLength(stream)
    requires ServerName(stream[..n]) == Short
    ensures ServerName(stream[..arrived]) == Short
  {
    if n >= 5 {
      assert stream[..n][3..5] == stream[3..5];
      if n == 5 + RecordLength(stream) {
        RecordIsNeverShort(stream[..n][5..n]);
      }
    }
  }
}
