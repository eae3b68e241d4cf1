/**
 * The parts of Python's `str` that model-name normalisation relies on:
 * `strip()` with no argument, and `split("/", 1)[0]`.
 */
module PyText {

  /** Python's `str.isspace()` for a single character: the code points `strip()` removes. */
  predicate IsSpace(c: char) {
    || ('\U{0009}' <= c <= '\U{000D}')
    || ('\U{001C}' <= c <= '\U{0020}')
    || c == '\U{0085}' || c == '\U{00A0}' || c == '\U{1680}'
    || ('\U{2000}' <= c <= '\U{200A}')
    || c == '\U{2028}' || c == '\U{2029}' || c == '\U{202F}' || c == '\U{205F}' || c == '\U{3000}'
  }

  predicate AllSpace(s: string) {
    forall i :: 0 <= i < |s| ==> IsSpace(s[i])
  }

  /** Neither end of `s` is whitespace. */
  predicate IsTrimmed(s: string) {
    s == [] || (!IsSpace(s[0]) && !IsSpace(s[|s| - 1]))
  }

  /** The first position at or after `i` that is not whitespace (`|s|` if there is none). */
  function SkipSpace(s: string, i: nat): (r: nat)
    requires i <= |s|
    ensures i <= r <= |s|
    ensures forall k :: i <= k < r ==> IsSpace(s[k])
    ensures r < |s| ==> !IsSpace(s[r])
    decreases |s| - i
  {
    if i < |s| && IsSpace(s[i]) then SkipSpace(s, i + 1) else i
  }

  /** The end of `s[lo..j]` once its trailing whitespace is dropped. */
  function SkipSpaceBack(s: string, lo: nat, j: nat): (r: nat)
    requires lo <= j <= |s|
    ensures lo <= r <= j
    ensures forall k :: r <= k < j ==> IsSpace(s[k])
    ensures r > lo ==> !IsSpace(s[r - 1])
  {
    if j > lo && IsSpace(s[j - 1]) then SkipSpaceBack(s, lo, j - 1) else j
  }

  /** `s.strip()`: what lies between the leading and the trailing whitespace. */
  function Trim(s: string): (r: string)
    ensures IsTrimmed(r)
    ensures |r| <= |s|
  {
    var a := SkipSpace(s, 0);
    s[a..SkipSpaceBack(s, a, |s|)]
  }

  lemma SpacePrefix(s: string, k: nat)
    requires k <= |s| && AllSpace(s[..k])
    ensures forall i :: 0 <= i < k ==> IsSpace(s[i])
  {
    forall i | 0 <= i < k
      ensures IsSpace(s[i])
    {
      assert s[..k][i] == s[i];
    }
  }

  lemma SpaceSuffix(s: string, k: nat)
    requires k <= |s| && AllSpace(s[k..])
    ensures forall i :: k <= i < |s| ==> IsSpace(s[i])
  {
    forall i | k <= i < |s|
      ensures IsSpace(s[i])
    {
      assert s[k..][i - k] == s[i];
    }
  }

  lemma NoSlashPrefix(s: string, k: nat)
    requires k <= |s| && '/' !in s[..k]
    ensures forall i :: 0 <= i < k ==> s[i] != '/'
  {
    forall i | 0 <= i < k
      ensures s[i] != '/'
    {
      assert s[..k][i] == s[i];
    }
  }

  /** `strip()` returns exactly the trimmed core of a string padded with whitespace on both sides. */
  lemma TrimOfPadded(lead: string, core: string, trail: string)
    requires AllSpace(lead) && AllSpace(trail) && IsTrimmed(core)
    ensures Trim(lead + core + trail) == core
  {
    var s := lead + core + trail;
    var n := |lead| + |core|;
    assert forall k :: 0 <= k < |lead| ==> s[k] == lead[k];
    assert forall k :: n <= k < |s| ==> s[k] == trail[k - n];
    var a := SkipSpace(s, 0);
    var b := SkipSpaceBack(s, a, |s|);
    if core == [] {
      assert a == |s|;
    } else {
      assert s[|lead|] == core[0] && s[n - 1] == core[|core| - 1];
      assert a == |lead|;
      assert b == n;
      assert s[a..b] == core;
    }
  }

  /** `strip()` keeps a contiguous slice of its input and removes only whitespace around it. */
  lemma TrimBounds(s: string) returns (a: nat, b: nat)
    ensures a <= b <= |s| && Trim(s) == s[a..b]
    ensures AllSpace(s[..a]) && AllSpace(s[b..])
  {
    a := SkipSpace(s, 0);
    b := SkipSpaceBack(s, a, |s|);
    assert forall k :: 0 <= k < a ==> s[..a][k] == s[k];
    assert forall k :: b <= k < |s| ==> s[b..][k - b] == s[k];
  }

  /** A string with no whitespace at either end is left alone by `strip()`. */
  lemma TrimFixesTrimmed(s: string)
    requires IsTrimmed(s)
    ensures Trim(s) == s
  {
    assert [] + s + [] == s;
    TrimOfPadded([], s, []);
  }

  /** `strip()` introduces no `/` that was not there. */
  lemma TrimKeepsNoSlash(s: string)
    requires '/' !in s
    ensures '/' !in Trim(s)
  {
    var a, b := TrimBounds(s);
    assert forall i :: a <= i < b ==> Trim(s)[i - a] == s[i];
  }

  /** Leading whitespace makes no difference to `strip()`. */
  lemma TrimSkipsLeadingSpace(lead: string, x: string)
    requires AllSpace(lead)
    ensures Trim(lead + x) == Trim(x)
  {
    var c, d := TrimBounds(x);
    var pad := lead + x[..c];
    assert lead + x == pad + x[c..d] + x[d..];
    SpacePrefix(x, c);
    assert AllSpace(pad);
    TrimOfPadded(pad, x[c..d], x[d..]);
  }

  /** `strip()` yields the empty string exactly on all-whitespace input. */
  lemma TrimEmptyIff(s: string)
    ensures Trim(s) == "" <==> AllSpace(s)
  {
    var a, b := TrimBounds(s);
    SpacePrefix(s, a);
    SpaceSuffix(s, b);
    if AllSpace(s) {
      assert s + [] + [] == s;
      TrimOfPadded(s, [], []);
    }
    assert Trim(s) == "" ==> a == b;
  }

  /** Index of the first `/` in `s`, or `|s|` when there is none. */
  function SlashIndex(s: string): (i: nat)
    ensures i <= |s| && '/' !in s[..i]
    ensures i < |s| ==> s[i] == '/'
  {
    if s == [] || s[0] == '/' then 0
    else
      var j := SlashIndex(s[1..]);
      assert s[..1 + j] == [s[0]] + s[1..][..j];
      1 + j
  }

  lemma SlashIndexUnique(s: string, k: nat)
    requires k <= |s| && '/' !in s[..k]
    requires k < |s| ==> s[k] == '/'
    ensures SlashIndex(s) == k
  {
    NoSlashPrefix(s, k);
    NoSlashPrefix(s, SlashIndex(s));
  }

  /** Before the first `/` of `name + "/" + rest` there is exactly `name` when `name` holds no `/`. */
  lemma FirstSegmentOfJoin(name: string, rest: string)
    requires '/' !in name
    ensures FirstSegment(name + "/" + rest) == name
  {
    var s := name + "/" + rest;
    assert s[..|name|] == name;
    SlashIndexUnique(s, |name|);
  }

  lemma SliceOfSlice(s: string, a: nat, b: nat, k: nat)
    requires a + k < b <= |s|
    ensures s[a..b][..k] == s[a..a + k] && s[a..b][k] == s[a + k]
  {
  }

  lemma NoSlashInSlice(s: string, a: nat, p: nat)
    requires a <= p <= |s| && '/' !in s[..p]
    ensures '/' !in s[a..p]
  {
    NoSlashPrefix(s, p);
  }

  lemma PrefixSplits(s: string, a: nat, p: nat)
    requires a <= p <= |s|
    ensures s[..p] == s[..a] + s[a..p]
  {
  }

  /** `s.split("/", 1)[0]`: everything before the first `/`. */
  function FirstSegment(s: string): (r: string)
    ensures '/' !in r
    ensures r == s || (|r| < |s| && s[|r|] == '/' && s[..|r|] == r)
  {
    s[..SlashIndex(s)]
  }
}
