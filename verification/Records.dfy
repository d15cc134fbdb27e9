/**
 The packets on a fiber's channel. A record is a kind and fields, each ended by NUL; the
 incarnation record carries what a fiber learns at birth. Go strings are modelled as strings
 whose characters are bytes.
 */
module Records {
  import opened Common
  import opened Decimal

  const NUL: char := '\0'
  const INCARNATION: char := 'i'
  const FENCE_MAX: nat := 128
  const RECORD_MAX: nat := 0x1_0000
  const SEED_BYTES: nat := 32
  const INCARNATION_FIELDS: nat := 11
  const INT64_LIMIT: nat := 0x8000_0000_0000_0000

  // ------------------------------------------------------------ framing

  function Framed(fields: seq<string>): (r: string) {
    if fields == [] then "" else fields[0] + [NUL] + Framed(fields[1..])
  }

  function Record(kind: char, fields: seq<string>): (r: string) {
    [kind] + Framed(fields)
  }

  /** Everything up to the first NUL. */
  function FirstField(s: string): (r: string)
    ensures r <= s && NUL !in r && (|r| < |s| ==> s[|r|] == NUL)
  {
    if s == "" || s[0] == NUL then "" else [s[0]] + FirstField(s[1..])
  }

  /** bytes.Split at NUL: one part more than there are NULs. */
  function Split(s: string): (r: seq<string>)
    ensures r != []
    decreases |s|
  {
    var f := FirstField(s);
    if |f| == |s| then [f] else [f] + Split(s[|f| + 1..])
  }

  function ParseRecord(data: string): (r: Option<(char, seq<string>)>) {
    if |data| < 2 || data[|data| - 1] != NUL then None
    else Some((data[0], Split(data[1..|data| - 1])))
  }

  ghost predicate NulFree(fields: seq<string>) {
    forall i :: 0 <= i < |fields| ==> NUL !in fields[i]
  }

  method BuildRecord(kind: char, fields: seq<string>) returns (buf: string)
    ensures buf == Record(kind, fields)
  {
    buf := [kind];
    for i := 0 to |fields|
      invariant buf + Framed(fields[i..]) == Record(kind, fields)
    {
      assert fields[i..][1..] == fields[i + 1..];
      assert buf + (fields[i] + [NUL] + Framed(fields[i + 1..])) == (buf + fields[i] + [NUL]) + Framed(fields[i + 1..]);
      buf := buf + fields[i] + [NUL];
    }
    assert buf + [] == buf;
  }

  lemma {:induction false} FirstFieldEnds(f: string, rest: string)
    requires NUL !in f && (rest == "" || rest[0] == NUL)
    ensures FirstField(f + rest) == f
  {
    if f == "" {
      assert f + rest == rest;
    } else {
      FirstFieldEnds(f[1..], rest);
      assert (f + rest)[1..] == f[1..] + rest;
    }
  }

  lemma SplitFirst(f: string, t: string)
    requires NUL !in f
    ensures Split(f + ([NUL] + t)) == [f] + Split(t)
  {
    FirstFieldEnds(f, [NUL] + t);
    assert (f + ([NUL] + t))[|f| + 1..] == t;
  }

  /** The fields with a NUL between them, the form Split takes apart. */
  ghost function Between(fields: seq<string>): (r: string)
    requires fields != []
  {
    if |fields| == 1 then fields[0] else fields[0] + ([NUL] + Between(fields[1..]))
  }

  lemma {:induction false} FramedIsBetween(fields: seq<string>)
    requires fields != []
    ensures Framed(fields) == Between(fields) + [NUL]
  {
    if |fields| == 1 {
      assert Framed(fields[1..]) == "";
    } else {
      FramedIsBetween(fields[1..]);
    }
  }

  lemma {:induction false} SplitInvertsBetween(fields: seq<string>)
    requires fields != [] && NulFree(fields)
    ensures Split(Between(fields)) == fields
  {
    if |fields| == 1 {
      assert fields[0] + "" == fields[0];
      FirstFieldEnds(fields[0], "");
    } else {
      SplitInvertsBetween(fields[1..]);
      SplitFirst(fields[0], Between(fields[1..]));
    }
  }

  lemma {:induction false} FramedInvertsSplit(s: string)
    ensures NulFree(Split(s)) && Framed(Split(s)) == s + [NUL]
    decreases |s|
  {
    var f := FirstField(s);
    if |f| < |s| {
      var rest := s[|f| + 1..];
      FramedInvertsSplit(rest);
      assert Split(s) == [f] + Split(rest) && ([f] + Split(rest))[1..] == Split(rest);
      assert Framed(Split(s)) == f + [NUL] + (rest + [NUL]);
      assert s == f + [NUL] + rest;
    } else {
      assert f == s && [f][1..] == [];
    }
  }

  /** Parsing gives back a record's fields exactly when there is a field and none holds a NUL. */
  lemma ParseInvertsRecord(kind: char, fields: seq<string>)
    ensures ParseRecord(Record(kind, fields)) == Some((kind, fields)) <==> fields != [] && NulFree(fields)
  {
    var data := Record(kind, fields);
    if fields != [] && NulFree(fields) {
      FramedIsBetween(fields);
      SplitInvertsBetween(fields);
      assert data[1..|data| - 1] == Between(fields);
    } else if ParseRecord(data).Some? {
      FramedInvertsSplit(data[1..|data| - 1]);
    }
  }

  /** Every packet that parses is the record of what it parsed to. */
  lemma RecordInvertsParse(data: string)
    requires ParseRecord(data).Some?
    ensures var r := ParseRecord(data).value; Record(r.0, r.1) == data && r.1 != [] && NulFree(r.1)
  {
    FramedInvertsSplit(data[1..|data| - 1]);
    assert data == [data[0]] + (data[1..|data| - 1] + [NUL]);
  }

  // ------------------------------------------------------------ hex

  predicate ByteString(s: string) { forall i :: 0 <= i < |s| ==> s[i] as int < 256 }

  function HexDigit(d: nat): (c: char)
    requires d < 16
  {
    if d < 10 then ('0' as int + d) as char else ('a' as int + d - 10) as char
  }

  /** Both cases are read, as hex.DecodeString does. */
  function HexValue(c: char): (d: Option<nat>)
    ensures d.Some? ==> d.value < 16
  {
    if '0' <= c <= '9' then Some(c as int - '0' as int)
    else if 'a' <= c <= 'f' then Some(c as int - 'a' as int + 10)
    else if 'A' <= c <= 'F' then Some(c as int - 'A' as int + 10)
    else None
  }

  function Hex(s: string): (r: string)
    ensures |r| == 2 * |s|
  {
    if s == "" then "" else [HexDigit(s[0] as int / 16 % 16), HexDigit(s[0] as int % 16)] + Hex(s[1..])
  }

  function UnHex(s: string): (r: Option<string>) {
    if s == "" then Some("")
    else if |s| == 1 then None else
    var hi, lo, rest := HexValue(s[0]), HexValue(s[1]), UnHex(s[2..]);
    if hi.None? || lo.None? || rest.None? then None
    else Some([(16 * hi.value + lo.value) as char] + rest.value)
  }

  predicate LowerHex(s: string) { forall i :: 0 <= i < |s| ==> !('A' <= s[i] <= 'F') }

  lemma {:induction false} UnHexInvertsHex(s: string)
    requires ByteString(s)
    ensures UnHex(Hex(s)) == Some(s) && LowerHex(Hex(s)) && NUL !in Hex(s) && '-' !in Hex(s)
  {
    if s != "" {
      UnHexInvertsHex(s[1..]);
      assert Hex(s)[2..] == Hex(s[1..]);
      HexByte(s[0]);
      assert s == [s[0]] + s[1..];
    }
  }

  lemma HexByte(c: char)
    requires c as int < 256
    ensures var hi, lo := HexDigit(c as int / 16 % 16), HexDigit(c as int % 16);
      HexValue(hi).Some? && HexValue(lo).Some? && 16 * HexValue(hi).value + HexValue(lo).value == c as int
  {
  }

  lemma {:induction false} HexInvertsUnHex(s: string)
    requires UnHex(s).Some?
    ensures ByteString(UnHex(s).value)
    ensures Hex(UnHex(s).value) == s <==> LowerHex(s)
  {
    if s != "" {
      var rest := s[2..];
      HexInvertsUnHex(rest);
      var u := UnHex(s).value;
      assert u[1..] == UnHex(rest).value;
      HexPair(s[0], s[1]);
      assert s == [s[0], s[1]] + rest;
      if Hex(u) == s {
        assert Hex(u)[2..] == rest;
        assert forall i :: 0 <= i < |rest| ==> s[i + 2] == rest[i];
        assert !('A' <= s[0] <= 'F') && !('A' <= s[1] <= 'F') && LowerHex(rest);
        forall i | 0 <= i < |s|
          ensures !('A' <= s[i] <= 'F')
        {
          assert i >= 2 ==> s[i] == rest[i - 2];
        }
      }
    }
  }

  lemma HexPair(hi: char, lo: char)
    requires HexValue(hi).Some? && HexValue(lo).Some?
    ensures var b := 16 * HexValue(hi).value + HexValue(lo).value;
      b < 256 && b / 16 % 16 == HexValue(hi).value && b % 16 == HexValue(lo).value
    ensures HexDigit(HexValue(hi).value) == hi <==> !('A' <= hi <= 'F')
    ensures HexDigit(HexValue(lo).value) == lo <==> !('A' <= lo <= 'F')
  {
  }

  function HexOrDash(s: string): (r: string) { if s == "" then "-" else Hex(s) }

  function UnHexField(s: string): (r: Option<string>) { if s == "-" then Some("") else UnHex(s) }

  lemma HexFieldRoundTrip(s: string)
    requires ByteString(s)
    ensures UnHexField(HexOrDash(s)) == Some(s) && HexOrDash(s) != "" && NUL !in HexOrDash(s)
  {
    UnHexInvertsHex(s);
  }

  lemma UnHexFieldRoundTrip(s: string)
    requires s != "" && UnHexField(s).Some?
    ensures ByteString(UnHexField(s).value) && (HexOrDash(UnHexField(s).value) == s <==> LowerHex(s))
  {
    if s != "-" {
      HexInvertsUnHex(s);
    }
  }

  // ------------------------------------------------------------ the incarnation record

  datatype Identity = Identity(key: string, cert: string, caller: string, callerCert: string)

  datatype Incarnation = Incarnation(
    generation: int, kind: string, fence: string, endpoint: string, payload: string, session: string,
    identity: Option<Identity>, seed: string)

  function IdentityFields(id: Option<Identity>): (r: seq<string>)
    ensures |r| == 4
  {
    if id.None? then ["-", "-", "-", "-"] else [id.value.key, id.value.cert, id.value.caller, id.value.callerCert]
  }

  function Fields(inc: Incarnation): (r: seq<string>)
    requires inc.generation >= 1
    ensures |r| == INCARNATION_FIELDS
  {
    [Digits(inc.generation), inc.kind, inc.fence, inc.endpoint, HexOrDash(inc.payload), HexOrDash(inc.session)]
    + IdentityFields(inc.identity) + [Hex(inc.seed)]
  }

  predicate IdentityComplete(id: Option<Identity>) {
    id.Some? ==> forall f :: f in IdentityFields(id) ==> f != "" && NUL !in f
  }

  predicate Framable(inc: Incarnation) {
    inc.generation >= 1 && inc.fence != "" && |inc.fence| < FENCE_MAX && inc.kind != "" && inc.endpoint != "" &&
    IdentityComplete(inc.identity) &&
    NUL !in inc.kind && NUL !in inc.fence && NUL !in inc.endpoint && NUL !in inc.session && |inc.seed| == SEED_BYTES
  }

  /** `Incarnation.Record`: the packet, or nothing when the library would refuse it. */
  function Packet(inc: Incarnation): (r: Option<string>) {
    if !Framable(inc) then None else
    var rec := Record(INCARNATION, Fields(inc));
    if |rec| > RECORD_MAX then None else Some(rec)
  }

  function ParseGeneration(s: string): (r: Option<nat>) {
    if s == "" || s[0] == '0' || !AllDigits(s) || Value(s) >= INT64_LIMIT then None else Some(Value(s))
  }

  function ParseIdentity(f: seq<string>): (r: Option<Option<Identity>>)
    requires |f| == 4
  {
    if forall i :: 0 <= i < 4 ==> f[i] == "-" then Some(None)
    else if exists i :: 0 <= i < 4 && f[i] == "-" then None
    else Some(Some(Identity(f[0], f[1], f[2], f[3])))
  }

  function ParseFields(f: seq<string>): (r: Option<Incarnation>)
    requires |f| == INCARNATION_FIELDS
  {
    var gen, payload, session := ParseGeneration(f[0]), UnHexField(f[4]), UnHexField(f[5]);
    var identity, seed := ParseIdentity(f[6..10]), UnHex(f[10]);
    if "" in f || gen.None? || |f[2]| >= FENCE_MAX || payload.None? || session.None? || NUL in session.value ||
       identity.None? || seed.None? || |seed.value| != SEED_BYTES then None
    else Some(Incarnation(gen.value, f[1], f[2], f[3], payload.value, session.value, identity.value, seed.value))
  }

  function ParseIncarnation(data: string): (r: Option<Incarnation>) {
    var p := ParseRecord(data);
    if p.None? || p.value.0 != INCARNATION || |p.value.1| != INCARNATION_FIELDS then None else ParseFields(p.value.1)
  }

  // ------------------------------------------------------------ the parser, as it runs

  /** Takes a packet apart as the source does: field by field, counting the identity fields that are set. */
  method ReadIncarnation(data: string) returns (r: Option<Incarnation>)
    ensures r == ParseIncarnation(data)
  {
    var p := ParseRecord(data);
    if p.None? || p.value.0 != INCARNATION || |p.value.1| != INCARNATION_FIELDS {
      return None;
    }
    var f := p.value.1;
    for i := 0 to |f|
      invariant "" !in f[..i]
    {
      if f[i] == "" {
        return None;
      }
      assert f[..i + 1] == f[..i] + [f[i]];
    }
    assert f[..|f|] == f;
    var gen := ParseGeneration(f[0]);
    if gen.None? || |f[2]| >= FENCE_MAX {
      return None;
    }
    var payload, session := UnHexField(f[4]), UnHexField(f[5]);
    if payload.None? || session.None? || NUL in session.value {
      return None;
    }
    var identity := CountIdentity(f[6..10]);
    if identity.None? {
      return None;
    }
    var seed := UnHex(f[10]);
    if seed.None? || |seed.value| != SEED_BYTES {
      return None;
    }
    return Some(Incarnation(gen.value, f[1], f[2], f[3], payload.value, session.value, identity.value, seed.value));
  }

  /** The identity is absent when no field is set, present when all four are, and refused otherwise. */
  method CountIdentity(f: seq<string>) returns (r: Option<Option<Identity>>)
    requires |f| == 4
    ensures r == ParseIdentity(f)
  {
    var got := ["", "", "", ""];
    var count := 0;
    for i := 0 to 4
      invariant |got| == 4 && 0 <= count <= i
      invariant count == 0 <==> forall j :: 0 <= j < i ==> f[j] == "-"
      invariant count == i <==> forall j :: 0 <= j < i ==> f[j] != "-"
      invariant forall j :: 0 <= j < i && f[j] != "-" ==> got[j] == f[j]
    {
      if f[i] != "-" {
        got := got[i := f[i]];
        count := count + 1;
      }
    }
    if count != 0 && count != 4 {
      return None;
    }
    return Some(if count == 4 then Some(Identity(got[0], got[1], got[2], got[3])) else None);
  }

  // ------------------------------------------------------------ round trips

  /** None of the identity's fields reads as "absent". */
  predicate NoDash(id: Option<Identity>) {
    id.Some? ==> "-" !in IdentityFields(id)
  }

  predicate AllDashes(id: Option<Identity>) {
    id == Some(Identity("-", "-", "-", "-"))
  }

  lemma GenerationRoundTrip(n: nat)
    requires 1 <= n < INT64_LIMIT
    ensures ParseGeneration(Digits(n)) == Some(n) && NUL !in Digits(n)
  {
    ValueOfDigits(n);
  }

  lemma IdentityRoundTrip(id: Option<Identity>)
    ensures ParseIdentity(IdentityFields(id)) ==
            if NoDash(id) then Some(id) else if AllDashes(id) then Some(None) else None
  {
    var f := IdentityFields(id);
    assert f[0] in f && f[1] in f && f[2] in f && f[3] in f;
  }

  lemma FieldsAreFramable(inc: Incarnation)
    requires Framable(inc) && inc.generation < INT64_LIMIT
    requires ByteString(inc.payload) && ByteString(inc.session) && ByteString(inc.seed)
    ensures NulFree(Fields(inc)) && "" !in Fields(inc)
  {
    GenerationRoundTrip(inc.generation);
    HexFieldRoundTrip(inc.payload);
    HexFieldRoundTrip(inc.session);
    UnHexInvertsHex(inc.seed);
    var f, id := Fields(inc), IdentityFields(inc.identity);
    forall i | 0 <= i < |f|
      ensures NUL !in f[i] && f[i] != ""
    {
      if 6 <= i < 10 {
        assert f[i] == id[i - 6] && id[i - 6] in id;
      }
    }
  }

  lemma FieldsParse(inc: Incarnation)
    requires Framable(inc) && inc.generation < INT64_LIMIT
    requires ByteString(inc.payload) && ByteString(inc.session) && ByteString(inc.seed)
    ensures ParseFields(Fields(inc)) ==
            if NoDash(inc.identity) then Some(inc)
            else if AllDashes(inc.identity) then Some(inc.(identity := None)) else None
  {
    FieldsAreFramable(inc);
    GenerationRoundTrip(inc.generation);
    HexFieldRoundTrip(inc.payload);
    HexFieldRoundTrip(inc.session);
    UnHexInvertsHex(inc.seed);
    IdentityRoundTrip(inc.identity);
    assert Fields(inc)[6..10] == IdentityFields(inc.identity);
  }

  /**
   An incarnation survives its packet if and only if no identity field is literally "-". With all
   four "-" the identity is lost; with one to three the packet is refused.
   */
  lemma IncarnationRoundTrip(inc: Incarnation)
    requires Packet(inc).Some? && inc.generation < INT64_LIMIT
    requires ByteString(inc.payload) && ByteString(inc.session) && ByteString(inc.seed)
    ensures ParseIncarnation(Packet(inc).value) == Some(inc) <==> NoDash(inc.identity)
    ensures AllDashes(inc.identity) ==> ParseIncarnation(Packet(inc).value) == Some(inc.(identity := None))
    ensures !NoDash(inc.identity) && !AllDashes(inc.identity) ==> ParseIncarnation(Packet(inc).value) == None
  {
    FieldsAreFramable(inc);
    ParseInvertsRecord(INCARNATION, Fields(inc));
    FieldsParse(inc);
  }

  lemma ParsedIsFramable(f: seq<string>)
    requires |f| == INCARNATION_FIELDS && NulFree(f) && ParseFields(f).Some?
    ensures
      var inc := ParseFields(f).value;
      Framable(inc) && inc.generation < INT64_LIMIT && ByteString(inc.payload) && ByteString(inc.session) &&
      ByteString(inc.seed)
  {
    assert f[0] in f && f[1] in f && f[2] in f && f[3] in f && f[4] in f && f[5] in f;
    assert f[6] in f && f[7] in f && f[8] in f && f[9] in f;
    PositiveValue(f[0]);
    UnHexFieldRoundTrip(f[4]);
    UnHexFieldRoundTrip(f[5]);
    HexInvertsUnHex(f[10]);
  }

  lemma IdentityRebuilds(f: seq<string>)
    requires |f| == 4 && ParseIdentity(f).Some?
    ensures IdentityFields(ParseIdentity(f).value) == f
  {
  }

  lemma FieldsRebuild(f: seq<string>)
    requires |f| == INCARNATION_FIELDS && NulFree(f) && ParseFields(f).Some?
    requires ParseFields(f).value.generation >= 1
    ensures Fields(ParseFields(f).value) == f <==> LowerHex(f[4]) && LowerHex(f[5]) && LowerHex(f[10])
  {
    var inc := ParseFields(f).value;
    assert f[4] in f && f[5] in f;
    DigitsOfValue(f[0]);
    UnHexFieldRoundTrip(f[4]);
    UnHexFieldRoundTrip(f[5]);
    HexInvertsUnHex(f[10]);
    IdentityRebuilds(f[6..10]);
    SameFields(f, Fields(inc));
  }

  /** Two field lists agree when they agree outside the hex fields and on them. */
  lemma SameFields(f: seq<string>, g: seq<string>)
    requires |f| == |g| == INCARNATION_FIELDS && f[..4] == g[..4] && f[6..10] == g[6..10]
    ensures g == f <==> g[4] == f[4] && g[5] == f[5] && g[10] == f[10]
  {
    if g[4] == f[4] && g[5] == f[5] && g[10] == f[10] {
      forall i | 0 <= i < |f|
        ensures g[i] == f[i]
      {
        assert i < 4 ==> f[i] == f[..4][i] && g[i] == g[..4][i];
        assert 6 <= i < 10 ==> f[i] == f[6..10][i - 6] && g[i] == g[6..10][i - 6];
      }
    }
  }

  /** A packet that parses is rebuilt byte for byte exactly when its hex is lower case and it is not over-long. */
  lemma PacketRoundTrip(data: string)
    requires ParseIncarnation(data).Some?
    ensures
      var f := ParseRecord(data).value.1;
      Packet(ParseIncarnation(data).value) == Some(data) <==>
      LowerHex(f[4]) && LowerHex(f[5]) && LowerHex(f[10]) && |data| <= RECORD_MAX
  {
    var f := ParseRecord(data).value.1;
    RecordInvertsParse(data);
    ParsedIsFramable(f);
    FieldsRebuild(f);
    var inc := ParseFields(f).value;
    FieldsAreFramable(inc);
    if Record(INCARNATION, Fields(inc)) == data {
      FramedInjective(Fields(inc), f);
    }
  }

  lemma FramedInjective(g: seq<string>, f: seq<string>)
    requires Record(INCARNATION, g) == Record(INCARNATION, f) && g != [] && f != [] && NulFree(f) && NulFree(g)
    ensures g == f
  {
    ParseInvertsRecord(INCARNATION, f);
    ParseInvertsRecord(INCARNATION, g);
  }
}
