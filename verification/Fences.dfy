/**
 A fence names one incarnation of a fiber: grant, epoch and sequence number. Its text is the id
 the fiber goes by, so no two fences may share one, and the triple must be recoverable from it.
 */
module Fences {
  import opened Common
  import opened Decimal

  datatype Fence = Fence(grantUID: string, epoch: nat, num: nat)

  function FenceString(f: Fence): (s: string) {
    f.grantUID + "/" + Digits(f.epoch) + "/" + Digits(f.num)
  }

  /** strings.LastIndexByte(s, '/') */
  function LastSlash(s: string): (i: int)
    ensures -1 <= i < |s|
    ensures i >= 0 ==> s[i] == '/'
    ensures forall k :: i < k < |s| ==> s[k] != '/'
  {
    if s == "" then -1
    else if s[|s| - 1] == '/' then |s| - 1
    else LastSlash(s[..|s| - 1])
  }

  datatype Parts = Parts(uid: string, epoch: string, num: string)

  /** The fields around the last two slashes. */
  function SplitFence(s: string): (r: Option<Parts>)
    ensures r.Some? ==> s == r.value.uid + "/" + r.value.epoch + "/" + r.value.num
    ensures r.Some? ==> NoSlash(r.value.epoch) && NoSlash(r.value.num)
  {
    var i := LastSlash(s);
    if i < 0 then None else
    var j := LastSlash(s[..i]);
    if j < 0 then None else
    Some(Parts(s[..j], s[j + 1..i], s[i + 1..]))
  }

  function ParseFence(s: string): (r: Option<Fence>) {
    var parts := SplitFence(s);
    if parts.None? then None else
    var epoch := ParseUint(parts.value.epoch);
    if epoch.None? then None else
    var num := ParseUint(parts.value.num);
    if num.None? then None else
    if parts.value.uid == "" then None else
    Some(Fence(parts.value.uid, epoch.value, num.value))
  }

  /** Later in the order of one grant: by epoch, then by number. */
  predicate Newer(f: Fence, o: Fence) {
    f.grantUID == o.grantUID &&
    if f.epoch != o.epoch then f.epoch > o.epoch else f.num > o.num
  }

  predicate NoSlash(s: string) { forall k :: 0 <= k < |s| ==> s[k] != '/' }

  lemma {:induction false} SplitAtLastSlash(s: string, a: string, b: string)
    requires s == a + "/" + b && NoSlash(b)
    ensures LastSlash(s) == |a| && s[..|a|] == a && s[|a| + 1..] == b
  {
    var i := LastSlash(s);
    assert s[|a|] == '/';
    assert forall k :: |a| < k < |s| ==> s[k] == b[k - |a| - 1];
  }

  /** The three fields are read back from the string by its last two slashes, whatever the uid holds. */
  lemma {:induction false} SplitFenceString(uid: string, epoch: string, num: string)
    requires NoSlash(epoch) && NoSlash(num)
    ensures SplitFence(uid + "/" + epoch + "/" + num) == Some(Parts(uid, epoch, num))
  {
    var head := uid + "/" + epoch;
    var s := head + "/" + num;
    SplitAtLastSlash(s, head, num);
    SplitAtLastSlash(head, uid, epoch);
    assert s[..|uid|] == head[..|uid|];
    assert s[|uid| + 1..|head|] == head[|uid| + 1..];
  }

  lemma FenceStringParts(f: Fence)
    ensures SplitFence(FenceString(f)) == Some(Parts(f.grantUID, Digits(f.epoch), Digits(f.num)))
  {
    SplitFenceString(f.grantUID, Digits(f.epoch), Digits(f.num));
  }

  /** ParseFence inverts String exactly for the fences with a grant and 64-bit counters. */
  lemma ParseFenceInvertsString(f: Fence)
    ensures ParseFence(FenceString(f)) == Some(f)
       <==> f.grantUID != "" && f.epoch < UINT64_LIMIT && f.num < UINT64_LIMIT
  {
    FenceStringParts(f);
    ValueOfDigits(f.epoch);
    ValueOfDigits(f.num);
  }

  /** Parsing is the inverse in the other direction too, except for numerals with leading zeros. */
  lemma StringInvertsParseFence(s: string)
    requires ParseFence(s).Some?
    ensures FenceString(ParseFence(s).value) == s
       <==> Canonical(SplitFence(s).value.epoch) && Canonical(SplitFence(s).value.num)
  {
    var f := ParseFence(s).value;
    var p := SplitFence(s).value;
    FenceStringParts(f);
    ValueOfDigits(f.epoch);
    ValueOfDigits(f.num);
    if Canonical(p.epoch) && Canonical(p.num) {
      DigitsOfValue(p.epoch);
      DigitsOfValue(p.num);
    }
  }

  /** Distinct fences give distinct fiber ids. */
  lemma FenceStringInjective(f: Fence, g: Fence)
    requires FenceString(f) == FenceString(g)
    ensures f == g
  {
    FenceStringParts(f);
    FenceStringParts(g);
    DigitsInjective(f.epoch, g.epoch);
    DigitsInjective(f.num, g.num);
  }

  lemma FenceStringNonEmpty(f: Fence)
    ensures FenceString(f) != ""
  {
    assert |FenceString(f)| >= 2;
  }
}
