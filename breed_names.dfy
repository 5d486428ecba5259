/** Breed-name normalisation: Java's `String.trim()` followed by a
    locale-independent lower-casing, the key under which the caching fetcher
    stores a breed. */
module BreedNames {

  /** `String.trim()` removes every character whose code is at most U+0020. */
  predicate IsTrimmable(c: char) {
    c <= ' '
  }

  predicate AllTrimmable(s: string) {
    forall i :: 0 <= i < |s| ==> IsTrimmable(s[i])
  }

  /** Neither end of `s` is a trimmable character. */
  predicate IsTrimmed(s: string) {
    s == [] || (!IsTrimmable(s[0]) && !IsTrimmable(s[|s| - 1]))
  }

  /** The first index at or after `i` that does not hold a trimmable
      character, or `|s|`: the first loop of `String.trim()`. */
  function StartFrom(s: string, i: nat): (st: nat)
    requires i <= |s|
    ensures i <= st <= |s|
    ensures forall k :: i <= k < st ==> IsTrimmable(s[k])
    ensures st == |s| || !IsTrimmable(s[st])
    decreases |s| - i
  {
    if i < |s| && IsTrimmable(s[i]) then StartFrom(s, i + 1) else i
  }

  /** The end of the slice `s[st..len]` once its trailing trimmable characters
      are dropped: the second loop of `String.trim()`. */
  function EndFrom(s: string, st: nat, len: nat): (end: nat)
    requires st <= len <= |s|
    ensures st <= end <= len
    ensures forall k :: end <= k < len ==> IsTrimmable(s[k])
    ensures end == st || !IsTrimmable(s[end - 1])
    decreases len
  {
    if st < len && IsTrimmable(s[len - 1]) then EndFrom(s, st, len - 1) else len
  }

  /** Java's `String.trim()`: the slice between the first and the last
      non-trimmable character. */
  function Trim(s: string): (r: string)
    ensures |r| <= |s| && IsTrimmed(r)
  {
    var st := StartFrom(s, 0);
    s[st..EndFrom(s, st, |s|)]
  }

  /** `s.trim().isEmpty()`: the test the caching fetcher uses to reject a name. */
  predicate IsBlank(s: string) {
    Trim(s) == []
  }

  /** Lower-cases one ASCII letter and leaves every other character alone; this
      stands for `toLowerCase(Locale.ROOT)`. */
  function LowerChar(c: char): (l: char)
    ensures !('A' <= l <= 'Z')
    ensures l == c || 'A' <= c <= 'Z'
  {
    if 'A' <= c <= 'Z' then (c as int - 'A' as int + 'a' as int) as char else c
  }

  /** Lower-cases a whole string, character by character. */
  function ToLower(s: string): (r: string)
    ensures |r| == |s|
    ensures forall i :: 0 <= i < |s| ==> r[i] == LowerChar(s[i])
  {
    if s == [] then [] else [LowerChar(s[0])] + ToLower(s[1..])
  }

  /** The cache key of a breed name: `breed.trim().toLowerCase(Locale.ROOT)`. */
  function Normalized(s: string): (r: string)
    ensures |r| <= |s| && IsTrimmed(r)
  {
    ToLowerKeepsTrimmable(Trim(s));
    ToLower(Trim(s))
  }

  /** Trimming only ever removes trimmable characters from the two ends: a
      name is a trimmable prefix, its trimmed form and a trimmable suffix. */
  lemma TrimSplit(s: string) returns (a: string, m: string, c: string)
    ensures s == a + m + c && m == Trim(s)
    ensures AllTrimmable(a) && AllTrimmable(c)
  {
    var st := StartFrom(s, 0);
    var end := EndFrom(s, st, |s|);
    a, m, c := s[..st], s[st..end], s[end..];
    assert s == a + m + c;
    assert AllTrimmable(c) by {
      forall k | 0 <= k < |c| ensures IsTrimmable(c[k]) {
        assert c[k] == s[end + k];
      }
    }
  }

  /** A name is blank exactly when every character of it is trimmable. */
  lemma BlankIffAllTrimmable(s: string)
    ensures IsBlank(s) <==> AllTrimmable(s)
  {
    var a, m, c := TrimSplit(s);
    if IsBlank(s) {
      assert s == a + c;
      AllTrimmableConcat(a, c);
    }
  }

  lemma AllTrimmableConcat(a: string, b: string)
    requires AllTrimmable(a) && AllTrimmable(b)
    ensures AllTrimmable(a + b)
  {
    forall k | 0 <= k < |a + b| ensures IsTrimmable((a + b)[k]) {
      if k >= |a| { assert (a + b)[k] == b[k - |a|]; }
    }
  }

  /** Trimming is determined by the padding alone: a core that starts and ends
      with a non-trimmable character is what `trim` returns, whatever trimmable
      characters surround it. */
  lemma TrimOfPadded(p: string, t: string, q: string)
    requires AllTrimmable(p) && AllTrimmable(q) && IsTrimmed(t)
    ensures Trim(p + t + q) == t
  {
    var s := p + t + q;
    var i, j := |p|, |p| + |t|;
    assert forall k :: 0 <= k < i ==> s[k] == p[k];
    assert forall k :: j <= k < |s| ==> s[k] == q[k - j];
    assert forall k :: i <= k < j ==> s[k] == t[k - i];
    var st := StartFrom(s, 0);
    var end := EndFrom(s, st, |s|);
    if t == [] {
      assert st == |s|;
    } else {
      assert s[i] == t[0] && s[j - 1] == t[|t| - 1];
      assert st == i;
      assert end == j;
      assert s[i..j] == t;
    }
  }

  /** A name that neither starts nor ends with a trimmable character is left
      alone by `trim`. */
  lemma TrimOfTrimmed(t: string)
    requires IsTrimmed(t)
    ensures Trim(t) == t
  {
    assert [] + t + [] == t;
    TrimOfPadded([], t, []);
  }

  /** Trimming an already trimmed name changes nothing. */
  lemma TrimIdempotent(s: string)
    ensures Trim(Trim(s)) == Trim(s)
  {
    TrimOfTrimmed(Trim(s));
  }

  lemma {:induction false} ToLowerIdempotent(s: string)
    ensures ToLower(ToLower(s)) == ToLower(s)
  {
    var u := ToLower(s);
    assert forall i :: 0 <= i < |u| ==> ToLower(u)[i] == LowerChar(LowerChar(s[i])) == u[i];
  }

  /** Lower-casing maps trimmable characters to trimmable ones and the others
      to non-trimmable ones. */
  lemma {:induction false} ToLowerKeepsTrimmable(s: string)
    ensures AllTrimmable(ToLower(s)) <==> AllTrimmable(s)
    ensures IsTrimmed(ToLower(s)) <==> IsTrimmed(s)
  {
    var u := ToLower(s);
    assert forall i :: 0 <= i < |s| ==> (IsTrimmable(u[i]) <==> IsTrimmable(s[i]));
  }

  lemma {:induction false} ToLowerConcat(a: string, b: string)
    ensures ToLower(a + b) == ToLower(a) + ToLower(b)
  {
    var l, r := ToLower(a + b), ToLower(a) + ToLower(b);
    assert |l| == |r|;
    forall k | 0 <= k < |l| ensures l[k] == r[k] {
      if k < |a| {
        assert (a + b)[k] == a[k];
      } else {
        assert (a + b)[k] == b[k - |a|];
      }
    }
  }

  /** Normalising twice is normalising once: every cache key is a fixed point
      of normalisation. */
  lemma NormalizedIdempotent(s: string)
    ensures Normalized(Normalized(s)) == Normalized(s)
  {
    var t := Trim(s);
    ToLowerKeepsTrimmable(t);
    TrimOfTrimmed(ToLower(t));
    ToLowerIdempotent(t);
  }

  /** A trimmed name without upper-case ASCII letters is its own key. */
  lemma NormalizedOfKey(s: string)
    requires IsTrimmed(s) && forall i :: 0 <= i < |s| ==> !('A' <= s[i] <= 'Z')
    ensures Normalized(s) == s
  {
    TrimOfTrimmed(s);
  }

  /** A name normalises to the empty key exactly when it is blank. */
  lemma NormalizedEmptyIffBlank(s: string)
    ensures Normalized(s) == [] <==> IsBlank(s)
  {
  }

  /** Trimming and lower-casing commute, so the key does not depend on the
      order of the two steps. */
  lemma TrimToLowerCommute(s: string)
    ensures Normalized(s) == Trim(ToLower(s))
  {
    var a, m, c := TrimSplit(s);
    ToLowerConcat(a + m, c);
    ToLowerConcat(a, m);
    ToLowerKeepsTrimmable(a);
    ToLowerKeepsTrimmable(m);
    ToLowerKeepsTrimmable(c);
    TrimOfPadded(ToLower(a), ToLower(m), ToLower(c));
  }

  /** Two names that differ only in letter case share a key. */
  lemma NormalizedIgnoresCase(a: string, b: string)
    requires ToLower(a) == ToLower(b)
    ensures Normalized(a) == Normalized(b)
  {
    TrimToLowerCommute(a);
    TrimToLowerCommute(b);
  }

  /** Regrouping the five parts of a padded name; kept apart from its one
      caller so that its sequence reasoning stays out of that proof. */
  lemma Regroup(p: string, a: string, m: string, c: string, q: string)
    ensures p + (a + m + c) + q == (p + a) + m + (c + q)
  {
    assert a + m + c == a + (m + c);
    assert p + (a + (m + c)) == (p + a) + (m + c);
    assert (p + a) + (m + c) + q == (p + a) + ((m + c) + q);
    assert (m + c) + q == m + (c + q);
    assert (p + a) + (m + (c + q)) == (p + a) + m + (c + q);
  }

  /** Two names that differ only in surrounding trimmable characters share a
      key. */
  lemma NormalizedIgnoresPadding(p: string, s: string, q: string)
    requires AllTrimmable(p) && AllTrimmable(q)
    ensures Normalized(p + s + q) == Normalized(s)
  {
    var a, m, c := TrimSplit(s);
    AllTrimmableConcat(p, a);
    AllTrimmableConcat(c, q);
    Regroup(p, a, m, c, q);
    TrimOfPadded(p + a, m, c + q);
  }
}
