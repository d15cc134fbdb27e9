/**
 Sealed files. The plaintext is cut into chunks, each sealed under a nonce made of its index and
 a last-chunk flag, with the file's header as associated data. Opening reads the same chunks back.
 */
module Seal {
  import opened Common
  import opened ByteStrings

  const CHUNK: nat := 0x10_0000
  const TAG: nat := 16
  const MAX_HEADER: nat := 0x1_0000
  const UINT64: nat := 0x1_0000_0000_0000_0000
  const UINT32: nat := 0x1_0000_0000

  /** "fiberd-seal-v1\n" */
  const MAGIC: Bytes := [102, 105, 98, 101, 114, 100, 45, 115, 101, 97, 108, 45, 118, 49, 10]

  function ChunkNonce(i: nat, last: bool): (n: Bytes)
    ensures |n| == 12
  {
    [0, 0, 0] + BigEndian(i, 8) + [if last then 1 else 0]
  }

  /** No two chunks of a file share a nonce, nor does a last chunk share one with the same chunk sealed as not last. */
  lemma ChunkNonceInjective(i: nat, last: bool, j: nat, last': bool)
    requires i < UINT64 && j < UINT64 && ChunkNonce(i, last) == ChunkNonce(j, last')
    ensures i == j && last == last'
  {
    Widths();
    BigEndianInverse(i, 8);
    BigEndianInverse(j, 8);
    assert BigEndian(i, 8) == ChunkNonce(i, last)[3..11];
    assert BigEndian(j, 8) == ChunkNonce(j, last')[3..11];
    assert ChunkNonce(i, last)[11] == if last then 1 else 0;
    assert ChunkNonce(j, last')[11] == if last' then 1 else 0;
  }

  // ------------------------------------------------------------ the cipher

  /** Nonce, associated data and text to sealed text, and back. */
  datatype Aead = Aead(seal: (Bytes, Bytes, Bytes) -> Bytes, open: (Bytes, Bytes, Bytes) -> Option<Bytes>)

  ghost predicate AddsTag(a: Aead) {
    forall n, ad, p :: |a.seal(n, ad, p)| == |p| + TAG
  }

  /** Every cipher opens whatever it sealed. */
  ghost predicate Correct(a: Aead) {
    forall n, ad, p :: a.open(n, ad, a.seal(n, ad, p)) == Some(p)
  }

  // ------------------------------------------------------------ sealing and opening

  function Min(a: nat, b: nat): (m: nat) { if a < b then a else b }

  function Prefix(hb: Bytes): (r: Bytes) {
    MAGIC + BigEndian(|hb|, 4) + hb
  }

  function SealChunks(a: Aead, prefix: Bytes, plain: Bytes, i: nat): (r: Bytes)
    decreases |plain|
  {
    var n := Min(CHUNK, |plain|);
    var last := |plain| <= CHUNK;
    var c := a.seal(ChunkNonce(i, last), prefix, plain[..n]);
    if last then c else c + SealChunks(a, prefix, plain[n..], i + 1)
  }

  function SealFile(a: Aead, hb: Bytes, plain: Bytes): (r: Bytes) {
    Prefix(hb) + SealChunks(a, Prefix(hb), plain, 0)
  }

  function OpenChunks(a: Aead, prefix: Bytes, body: Bytes, i: nat): (r: Option<Bytes>)
    decreases |body|
  {
    var n := Min(CHUNK + TAG, |body|);
    var last := |body| <= CHUNK + TAG;
    var p := a.open(ChunkNonce(i, last), prefix, body[..n]);
    if p.None? then None
    else if last then p
    else
      var rest := OpenChunks(a, prefix, body[n..], i + 1);
      if rest.None? then None else Some(p.value + rest.value)
  }

  /** The header's bytes, if the stream has the magic and a header of an allowed length. */
  function ReadSealHeader(s: Bytes): (r: Option<Bytes>) {
    if |s| < |MAGIC| + 4 || s[..|MAGIC|] != MAGIC then None else
    var n := FromBigEndian(s[|MAGIC|..|MAGIC| + 4]);
    if n > MAX_HEADER || |s| - |MAGIC| - 4 < n then None
    else Some(s[|MAGIC| + 4..|MAGIC| + 4 + n])
  }

  /** `keyFor` decodes and judges a header and derives the file's cipher from it, or refuses. */
  function OpenFile(s: Bytes, keyFor: Bytes -> Option<Aead>): (r: Option<Bytes>) {
    var hb := ReadSealHeader(s);
    if hb.None? then None else
    var a := keyFor(hb.value);
    if a.None? then None else
    var k := |MAGIC| + 4 + |hb.value|;
    OpenChunks(a.value, s[..k], s[k..], 0)
  }

  // ------------------------------------------------------------ the chunk loops

  /** `sealFile` on the whole input: read a chunk, look one byte ahead for the end, seal, write. */
  method SealStream(a: Aead, hb: Bytes, plain: Bytes) returns (out: Bytes)
    ensures out == SealFile(a, hb, plain)
  {
    var prefix := Prefix(hb);
    out := prefix;
    var at, i := 0, 0;
    while true
      invariant at <= |plain| && out + SealChunks(a, prefix, plain[at..], i) == SealFile(a, hb, plain)
      decreases |plain| - at
    {
      var n := Min(CHUNK, |plain| - at);
      var last := n < CHUNK;
      if !last && at + n == |plain| {
        last := true;
      }
      ChunkOf(plain, at, n);
      ghost var rest := if last then [] else SealChunks(a, prefix, plain[at + n..], i + 1);
      var c := a.seal(ChunkNonce(i, last), prefix, plain[at..at + n]);
      assert out + (c + rest) == (out + c) + rest;
      out := out + c;
      if last {
        assert out + rest == out;
        return;
      }
      at, i := at + n, i + 1;
    }
  }

  /** What opening the rest adds to the plaintext written so far. */
  function Joined(got: Bytes, rest: Option<Bytes>): (r: Option<Bytes>) {
    if rest.None? then None else Some(got + rest.value)
  }

  lemma JoinedToNothing(rest: Option<Bytes>)
    ensures Joined([], rest) == rest
  {
    assert rest.Some? ==> [] + rest.value == rest.value;
  }

  lemma JoinedTwice(got: Bytes, p: Bytes, rest: Option<Bytes>)
    ensures Joined(got, Joined(p, rest)) == Joined(got + p, rest)
  {
    assert rest.Some? ==> got + (p + rest.value) == (got + p) + rest.value;
  }

  lemma ChunkOf(b: Bytes, at: nat, n: nat)
    requires at + n <= |b|
    ensures b[at..][..n] == b[at..at + n] && b[at..][n..] == b[at + n..]
  {
  }

  /** `openFile` on the whole stream. */
  method OpenStream(s: Bytes, keyFor: Bytes -> Option<Aead>) returns (r: Option<Bytes>)
    ensures r == OpenFile(s, keyFor)
  {
    var hb := ReadSealHeader(s);
    if hb.None? {
      return None;
    }
    var a := keyFor(hb.value);
    if a.None? {
      return None;
    }
    r := OpenBody(a.value, s[..|MAGIC| + 4 + |hb.value|], s[|MAGIC| + 4 + |hb.value|..]);
  }

  method OpenBody(a: Aead, prefix: Bytes, body: Bytes) returns (r: Option<Bytes>)
    ensures r == OpenChunks(a, prefix, body, 0)
  {
    var got: Bytes := [];
    var at, i := 0, 0;
    JoinedToNothing(OpenChunks(a, prefix, body, 0));
    assert body[0..] == body;
    while true
      invariant at <= |body| && Joined(got, OpenChunks(a, prefix, body[at..], i)) == OpenChunks(a, prefix, body, 0)
      decreases |body| - at
    {
      var n := Min(CHUNK + TAG, |body| - at);
      var last := n < CHUNK + TAG;
      if !last && at + n == |body| {
        last := true;
      }
      ChunkOf(body, at, n);
      var p := a.open(ChunkNonce(i, last), prefix, body[at..at + n]);
      if p.None? {
        return None;
      }
      if last {
        return Some(got + p.value);
      }
      JoinedTwice(got, p.value, OpenChunks(a, prefix, body[at + n..], i + 1));
      got := got + p.value;
      at, i := at + n, i + 1;
    }
  }

  // ------------------------------------------------------------ what sealing produced

  /** (n, ad, c, p) is one of the chunks that sealing `plain` from chunk i on produced. */
  predicate Produced(seal: (Bytes, Bytes, Bytes) -> Bytes, prefix: Bytes, plain: Bytes, i: nat, n: Bytes, ad: Bytes,
                     c: Bytes, p: Bytes)
    decreases |plain|
  {
    var k := Min(CHUNK, |plain|);
    var last := |plain| <= CHUNK;
    (n == ChunkNonce(i, last) && ad == prefix && p == plain[..k] && c == seal(n, prefix, p)) ||
    (!last && Produced(seal, prefix, plain[k..], i + 1, n, ad, c, p))
  }

  /** The file's own chunks open under `a`, from chunk i on. */
  ghost predicate OpensProduced(a: Aead, prefix: Bytes, plain: Bytes, i: nat) {
    forall n, ad, c, p :: Produced(a.seal, prefix, plain, i, n, ad, c, p) ==> a.open(n, ad, c) == Some(p)
  }

  /** With this prefix as associated data, from chunk i on, only what sealing this file produced opens. */
  ghost predicate OpensOnlyProduced(a: Aead, prefix: Bytes, plain: Bytes, i: nat) {
    forall j: nat, last, c :: i <= j < UINT64 && a.open(ChunkNonce(j, last), prefix, c).Some? ==>
      Produced(a.seal, prefix, plain, i, ChunkNonce(j, last), prefix, c, a.open(ChunkNonce(j, last), prefix, c).value)
  }

  lemma {:induction false} ProducedChunkOpens(a: Aead, prefix: Bytes, plain: Bytes, i: nat, n: Bytes, ad: Bytes,
                                              c: Bytes, p: Bytes)
    requires Correct(a) && Produced(a.seal, prefix, plain, i, n, ad, c, p)
    ensures a.open(n, ad, c) == Some(p)
    decreases |plain|
  {
    var k := Min(CHUNK, |plain|);
    if |plain| > CHUNK && Produced(a.seal, prefix, plain[k..], i + 1, n, ad, c, p) {
      ProducedChunkOpens(a, prefix, plain[k..], i + 1, n, ad, c, p);
    }
  }

  // ------------------------------------------------------------ round trip

  lemma {:induction false} OpenInvertsSeal(a: Aead, prefix: Bytes, plain: Bytes, i: nat)
    requires AddsTag(a) && OpensProduced(a, prefix, plain, i)
    ensures OpenChunks(a, prefix, SealChunks(a, prefix, plain, i), i) == Some(plain)
    ensures |SealChunks(a, prefix, plain, i)| > 0
    decreases |plain|
  {
    var n := Min(CHUNK, |plain|);
    var last := |plain| <= CHUNK;
    var c := a.seal(ChunkNonce(i, last), prefix, plain[..n]);
    var body := SealChunks(a, prefix, plain, i);
    assert |c| == n + TAG;
    assert Produced(a.seal, prefix, plain, i, ChunkNonce(i, last), prefix, c, plain[..n]);
    if last {
      assert plain[..n] == plain;
      assert body[..|body|] == body == c;
    } else {
      assert forall m, ad, d, p :: Produced(a.seal, prefix, plain[n..], i + 1, m, ad, d, p) ==>
        Produced(a.seal, prefix, plain, i, m, ad, d, p);
      OpenInvertsSeal(a, prefix, plain[n..], i + 1);
      DropChunk(c, SealChunks(a, prefix, plain[n..], i + 1));
      assert plain == plain[..n] + plain[n..];
    }
  }

  lemma DropChunk(c: Bytes, rest: Bytes)
    ensures (c + rest)[..|c|] == c && (c + rest)[|c|..] == rest
  {
  }

  lemma HeaderReadsBack(hb: Bytes, rest: Bytes)
    requires |hb| < UINT32
    ensures ReadSealHeader(Prefix(hb) + rest) == if |hb| <= MAX_HEADER then Some(hb) else None
  {
    var s := Prefix(hb) + rest;
    Widths();
    BigEndianInverse(|hb|, 4);
    assert s[..|MAGIC|] == MAGIC;
    assert s[|MAGIC|..|MAGIC| + 4] == BigEndian(|hb|, 4);
    if |hb| <= MAX_HEADER {
      assert s[|MAGIC| + 4..|MAGIC| + 4 + |hb|] == hb;
    }
  }

  lemma SealedFileOpens(a: Aead, hb: Bytes, plain: Bytes, keyFor: Bytes -> Option<Aead>)
    requires AddsTag(a) && OpensProduced(a, Prefix(hb), plain, 0) && |hb| < UINT32 && keyFor(hb) == Some(a)
    ensures OpenFile(SealFile(a, hb, plain), keyFor) == if |hb| <= MAX_HEADER then Some(plain) else None
  {
    var body := SealChunks(a, Prefix(hb), plain, 0);
    var s := SealFile(a, hb, plain);
    HeaderReadsBack(hb, body);
    OpenInvertsSeal(a, Prefix(hb), plain, 0);
    DropChunk(Prefix(hb), body);
  }

  /** Opening a sealed file gives back its plaintext, of any length, if and only if the header fits 65536 bytes. */
  lemma SealRoundTrip(a: Aead, hb: Bytes, plain: Bytes, keyFor: Bytes -> Option<Aead>)
    requires AddsTag(a) && Correct(a) && |hb| < UINT32 && keyFor(hb) == Some(a)
    ensures OpenFile(SealFile(a, hb, plain), keyFor) == Some(plain) <==> |hb| <= MAX_HEADER
  {
    forall n, ad, c, p | Produced(a.seal, Prefix(hb), plain, 0, n, ad, c, p)
      ensures a.open(n, ad, c) == Some(p)
    {
      ProducedChunkOpens(a, Prefix(hb), plain, 0, n, ad, c, p);
    }
    SealedFileOpens(a, hb, plain, keyFor);
  }

  // ------------------------------------------------------------ nothing else opens

  lemma OpensOnlyLater(a: Aead, prefix: Bytes, plain: Bytes, i: nat)
    requires OpensOnlyProduced(a, prefix, plain, i) && |plain| > CHUNK && i < UINT64
    ensures OpensOnlyProduced(a, prefix, plain[CHUNK..], i + 1)
  {
    forall j: nat, last, c | i + 1 <= j < UINT64 && a.open(ChunkNonce(j, last), prefix, c).Some?
      ensures Produced(a.seal, prefix, plain[CHUNK..], i + 1, ChunkNonce(j, last), prefix, c,
                       a.open(ChunkNonce(j, last), prefix, c).value)
    {
      assert Produced(a.seal, prefix, plain, i, ChunkNonce(j, last), prefix, c,
                      a.open(ChunkNonce(j, last), prefix, c).value);
      if ChunkNonce(j, last) == ChunkNonce(i, false) {
        ChunkNonceInjective(j, last, i, false);
      }
    }
  }

  /** A produced chunk carries the nonce of its own position, so none before position i. */
  lemma {:induction false} LaterChunksHaveLaterNonces(seal: (Bytes, Bytes, Bytes) -> Bytes, prefix: Bytes,
                                                      plain: Bytes, i: nat, j: nat, last: bool, ad: Bytes, c: Bytes,
                                                      p: Bytes)
    requires Produced(seal, prefix, plain, i, ChunkNonce(j, last), ad, c, p) && j < UINT64 && i + |plain| < UINT64
    ensures i <= j
    decreases |plain|
  {
    if ChunkNonce(j, last) == ChunkNonce(i, |plain| <= CHUNK) {
      ChunkNonceInjective(j, last, i, |plain| <= CHUNK);
    } else {
      LaterChunksHaveLaterNonces(seal, prefix, plain[CHUNK..], i + 1, j, last, ad, c, p);
    }
  }

  /** What was produced with the nonce of position i is chunk i, with its own last flag. */
  lemma ProducedAt(seal: (Bytes, Bytes, Bytes) -> Bytes, prefix: Bytes, plain: Bytes, i: nat, last: bool, ad: Bytes,
                   c: Bytes, p: Bytes)
    requires Produced(seal, prefix, plain, i, ChunkNonce(i, last), ad, c, p) && i + |plain| < UINT64
    ensures ad == prefix && last == (|plain| <= CHUNK) && p == plain[..Min(CHUNK, |plain|)]
    ensures c == seal(ChunkNonce(i, last), prefix, p)
  {
    if ChunkNonce(i, last) == ChunkNonce(i, |plain| <= CHUNK) {
      ChunkNonceInjective(i, last, i, |plain| <= CHUNK);
    }
    if |plain| > CHUNK && Produced(seal, prefix, plain[CHUNK..], i + 1, ChunkNonce(i, last), ad, c, p) {
      LaterChunksHaveLaterNonces(seal, prefix, plain[CHUNK..], i + 1, i, last, ad, c, p);
    }
  }

  lemma {:induction false} OnlyTheSealedBodyOpens(a: Aead, prefix: Bytes, plain: Bytes, i: nat, body: Bytes)
    requires OpensOnlyProduced(a, prefix, plain, i) && i + |plain| < UINT64 && AddsTag(a)
    requires OpenChunks(a, prefix, body, i).Some?
    ensures body == SealChunks(a, prefix, plain, i) && OpenChunks(a, prefix, body, i) == Some(plain)
    decreases |body|
  {
    var n := Min(CHUNK + TAG, |body|);
    var last := |body| <= CHUNK + TAG;
    var p := a.open(ChunkNonce(i, last), prefix, body[..n]).value;
    assert Produced(a.seal, prefix, plain, i, ChunkNonce(i, last), prefix, body[..n], p);
    ProducedAt(a.seal, prefix, plain, i, last, prefix, body[..n], p);
    if last {
      assert body[..n] == body && plain[..|plain|] == plain;
    } else {
      OpensOnlyLater(a, prefix, plain, i);
      OnlyTheSealedBodyOpens(a, prefix, plain[CHUNK..], i + 1, body[n..]);
      assert body == body[..n] + body[n..] && plain == plain[..CHUNK] + plain[CHUNK..];
    }
  }

  // ------------------------------------------------------------ all the files a home has sealed

  /** A sealed file: the cipher of its own key, and its plaintext. */
  datatype Sealed = Sealed(key: Aead, plain: Bytes)

  /** Some file sealed under this very cipher has this chunk. */
  ghost predicate SealedChunk(files: map<Bytes, Sealed>, b: Aead, n: Bytes, ad: Bytes, c: Bytes, p: Bytes) {
    exists h :: h in files && files[h].key == b && Produced(b.seal, Prefix(h), files[h].plain, 0, n, ad, c, p)
  }

  ghost predicate OpensOnlySealed(files: map<Bytes, Sealed>, b: Aead) {
    forall j: nat, last, ad, c :: j < UINT64 && b.open(ChunkNonce(j, last), ad, c).Some? ==>
      SealedChunk(files, b, ChunkNonce(j, last), ad, c, b.open(ChunkNonce(j, last), ad, c).value)
  }

  /**
   Ideal ciphers for the files sealed so far, by header. Every file's own chunks open, and a cipher
   that some header leads to opens no chunk but those sealed under it. Headers may share a key.
   */
  ghost predicate Ideal(files: map<Bytes, Sealed>, keyFor: Bytes -> Option<Aead>) {
    (forall h :: h in files ==> AddsTag(files[h].key) && OpensProduced(files[h].key, Prefix(h), files[h].plain, 0)) &&
    (forall h :: keyFor(h).Some? ==> OpensOnlySealed(files, keyFor(h).value))
  }

  lemma {:induction false} ProducedUnder(seal: (Bytes, Bytes, Bytes) -> Bytes, prefix: Bytes, plain: Bytes, i: nat,
                                         n: Bytes, ad: Bytes, c: Bytes, p: Bytes)
    requires Produced(seal, prefix, plain, i, n, ad, c, p)
    ensures ad == prefix
    decreases |plain|
  {
    var k := Min(CHUNK, |plain|);
    if |plain| > CHUNK && Produced(seal, prefix, plain[k..], i + 1, n, ad, c, p) {
      ProducedUnder(seal, prefix, plain[k..], i + 1, n, ad, c, p);
    }
  }

  /** The header is part of every chunk's associated data, so a sealed chunk names its file. */
  lemma ChunkOfItsOwnFile(files: map<Bytes, Sealed>, b: Aead, h: Bytes, n: Bytes, ad: Bytes, c: Bytes, p: Bytes)
    requires SealedChunk(files, b, n, ad, c, p) && |ad| == |MAGIC| + 4 + |h| && ad[|MAGIC| + 4..] == h
    ensures ad == Prefix(h) && h in files && files[h].key == b
    ensures Produced(b.seal, ad, files[h].plain, 0, n, ad, c, p)
  {
    var f :| f in files && files[f].key == b && Produced(b.seal, Prefix(f), files[f].plain, 0, n, ad, c, p);
    ProducedUnder(b.seal, Prefix(f), files[f].plain, 0, n, ad, c, p);
    assert Prefix(f)[|MAGIC| + 4..] == f;
  }

  /** A stream that opens has the header of a sealed file, and the key that header leads to is that file's. */
  lemma OpensUnderItsOwnHeader(files: map<Bytes, Sealed>, keyFor: Bytes -> Option<Aead>, s: Bytes) returns (h: Bytes)
    requires Ideal(files, keyFor) && OpenFile(s, keyFor).Some?
    ensures ReadSealHeader(s) == Some(h) && |h| <= MAX_HEADER && Prefix(h) <= s
    ensures h in files && keyFor(h) == Some(files[h].key)
    ensures OpensOnlyProduced(files[h].key, Prefix(h), files[h].plain, 0)
  {
    h := ReadSealHeader(s).value;
    var b := keyFor(h).value;
    var k := |MAGIC| + 4 + |h|;
    var ad, body := s[..k], s[k..];
    var n := Min(CHUNK + TAG, |body|);
    var last := |body| <= CHUNK + TAG;
    assert ad[|MAGIC| + 4..] == h;
    ChunkOfItsOwnFile(files, b, h, ChunkNonce(0, last), ad, body[..n],
                      b.open(ChunkNonce(0, last), ad, body[..n]).value);
    forall j: nat, last, c | j < UINT64 && b.open(ChunkNonce(j, last), ad, c).Some?
      ensures Produced(b.seal, ad, files[h].plain, 0, ChunkNonce(j, last), ad, c,
                       b.open(ChunkNonce(j, last), ad, c).value)
    {
      ChunkOfItsOwnFile(files, b, h, ChunkNonce(j, last), ad, c, b.open(ChunkNonce(j, last), ad, c).value);
    }
  }

  /** s is the sealed file with header h, whose key that header leads to, and p its plaintext. */
  ghost predicate IsSealed(files: map<Bytes, Sealed>, keyFor: Bytes -> Option<Aead>, h: Bytes, s: Bytes, p: Bytes) {
    h in files && |h| <= MAX_HEADER && keyFor(h) == Some(files[h].key) &&
    s == SealFile(files[h].key, h, files[h].plain) && p == files[h].plain
  }

  /**
   Whatever a home has sealed, a stream opens if and only if it is one of its files, under the key
   its header leads to, and then to that file's plaintext. No truncated, extended, reordered or
   re-split stream is accepted, none with chunks of two files, and none under another file's header
   or key.
   */
  lemma OnlyTheSealedFileOpens(files: map<Bytes, Sealed>, keyFor: Bytes -> Option<Aead>, s: Bytes, p: Bytes)
    requires Ideal(files, keyFor) && forall h :: h in files ==> |files[h].plain| < UINT64
    ensures OpenFile(s, keyFor) == Some(p) <==> exists h :: IsSealed(files, keyFor, h, s, p)
  {
    if h :| IsSealed(files, keyFor, h, s, p) {
      SealedFileOpens(files[h].key, h, p, keyFor);
    }
    if OpenFile(s, keyFor) == Some(p) {
      var h := OpensUnderItsOwnHeader(files, keyFor, s);
      var k := |Prefix(h)|;
      assert s == s[..k] + s[k..] && s[..k] == Prefix(h);
      OnlyTheSealedBodyOpens(files[h].key, Prefix(h), files[h].plain, 0, s[k..]);
      assert IsSealed(files, keyFor, h, s, p);
    }
  }

  // ------------------------------------------------------------ such a cipher exists

  const TAG_BYTES: Bytes := [0, 0, 0, 0, 0, 0, 0, 0, 0, 0, 0, 0, 0, 0, 0, 0]

  function Tagged(n: Bytes, ad: Bytes, p: Bytes): (c: Bytes) { p + TAG_BYTES }

  /** Opens the chunks of these files and nothing else. */
  ghost function OneOf(plains: map<Bytes, Bytes>, n: Bytes, ad: Bytes, c: Bytes): (r: Option<Bytes>) {
    if |c| >= TAG && exists h :: h in plains && Produced(Tagged, Prefix(h), plains[h], 0, n, ad, c, c[..|c| - TAG])
    then Some(c[..|c| - TAG]) else None
  }

  lemma {:induction false} ProducedIsTagged(prefix: Bytes, plain: Bytes, i: nat, n: Bytes, ad: Bytes, c: Bytes,
                                            p: Bytes)
    requires Produced(Tagged, prefix, plain, i, n, ad, c, p)
    ensures |c| >= TAG && p == c[..|c| - TAG]
    decreases |plain|
  {
    var k := Min(CHUNK, |plain|);
    if |plain| > CHUNK && Produced(Tagged, prefix, plain[k..], i + 1, n, ad, c, p) {
      ProducedIsTagged(prefix, plain[k..], i + 1, n, ad, c, p);
    }
  }

  /** For any number of files such ciphers exist, even one for all of them that every header leads to. */
  lemma IdealCipherExists(plains: map<Bytes, Bytes>) returns (files: map<Bytes, Sealed>, keyFor: Bytes -> Option<Aead>)
    ensures Ideal(files, keyFor) && files.Keys == plains.Keys
    ensures forall h :: h in plains ==> files[h].plain == plains[h] && keyFor(h) == Some(files[h].key)
  {
    var key := Aead(Tagged, (n: Bytes, ad: Bytes, c: Bytes) => OneOf(plains, n, ad, c));
    keyFor := (h: Bytes) => Some(key);
    files := map h | h in plains :: Sealed(key, plains[h]);
    forall h, n, ad, c, p | h in plains && Produced(Tagged, Prefix(h), plains[h], 0, n, ad, c, p)
      ensures key.open(n, ad, c) == Some(p)
    {
      ProducedIsTagged(Prefix(h), plains[h], 0, n, ad, c, p);
    }
    forall j: nat, last, ad, c | j < UINT64 && key.open(ChunkNonce(j, last), ad, c).Some?
      ensures SealedChunk(files, key, ChunkNonce(j, last), ad, c, key.open(ChunkNonce(j, last), ad, c).value)
    {
      var h :| h in plains && Produced(Tagged, Prefix(h), plains[h], 0, ChunkNonce(j, last), ad, c, c[..|c| - TAG]);
      assert h in files && files[h].key == key;
    }
  }
}
