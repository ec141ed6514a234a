/**
 * The string primitives the script leans on: `toLowerCase` (restricted to
 * ASCII), `includes`, a suffix test, `trim` and `Array.prototype.join`.
 * Strings are sequences of characters.
 */
module Text {

  predicate IsUpper(c: char) {
    'A' <= c <= 'Z'
  }

  /** ASCII case folding of a single character. */
  function LowerChar(c: char): (r: char)
    ensures !IsUpper(r)
    ensures IsUpper(c) ==> r as int == c as int + 32
    ensures !IsUpper(c) ==> r == c
  {
    if IsUpper(c) then (c as int + 32) as char else c
  }

  /** `toLowerCase`, restricted to ASCII letters. */
  function Lower(s: string): (r: string)
    ensures |r| == |s|
    ensures forall i :: 0 <= i < |s| ==> r[i] == LowerChar(s[i])
  {
    seq(|s|, i requires 0 <= i < |s| => LowerChar(s[i]))
  }

  predicate IsLowered(s: string) {
    forall i :: 0 <= i < |s| ==> !IsUpper(s[i])
  }

  /** Lowering leaves no upper-case letter and changes nothing that has none. */
  lemma LowerIsLowered(s: string)
    ensures IsLowered(Lower(s))
    ensures IsLowered(s) ==> Lower(s) == s
  {
  }

  lemma LowerIdempotent(s: string)
    ensures Lower(Lower(s)) == Lower(s)
  {
    LowerIsLowered(s);
  }

  /** `s.includes(k)`: `k` occurs in `s` as a contiguous run. */
  predicate Contains(s: string, k: string)
    decreases |s|
  {
    k <= s || (|s| > 0 && Contains(s[1..], k))
  }

  /** The occurrence reading of `Contains`: some position of `s` starts a copy of `k`. */
  lemma {:induction false} ContainsIff(s: string, k: string)
    ensures Contains(s, k) <==> exists i :: 0 <= i <= |s| && k <= s[i..]
    decreases |s|
  {
    if |s| > 0 {
      ContainsIff(s[1..], k);
      if Contains(s[1..], k) {
        var i :| 0 <= i <= |s[1..]| && k <= s[1..][i..];
        assert s[1..][i..] == s[i + 1..];
        assert 0 <= i + 1 <= |s| && k <= s[i + 1..];
      }
      if exists i :: 0 <= i <= |s| && k <= s[i..] {
        var i :| 0 <= i <= |s| && k <= s[i..];
        if i > 0 {
          assert s[1..][i - 1..] == s[i..];
          assert 0 <= i - 1 <= |s[1..]| && k <= s[1..][i - 1..];
          assert Contains(s[1..], k);
        }
      }
    } else {
      if exists i :: 0 <= i <= |s| && k <= s[i..] {
        var i :| 0 <= i <= |s| && k <= s[i..];
        assert s[i..] == s;
      }
    }
  }

  /** A copy of `k` at position `i` of `s` is an occurrence. */
  lemma OccursAt(s: string, k: string, i: nat)
    requires i + |k| <= |s| && s[i..i + |k|] == k
    ensures Contains(s, k)
  {
    assert k <= s[i..];
    ContainsIff(s, k);
  }

  /** Nothing longer than `s` occurs in it. */
  lemma {:induction false} ContainsShorter(s: string, k: string)
    requires Contains(s, k)
    ensures |k| <= |s|
    decreases |s|
  {
    if !(k <= s) {
      ContainsShorter(s[1..], k);
    }
  }

  /** A string holding a character that `s` lacks does not occur in `s`. */
  lemma AbsentChar(s: string, k: string, j: nat)
    requires j < |k| && k[j] !in s
    ensures !Contains(s, k)
  {
    ContainsIff(s, k);
  }

  /** An occurrence in `s` is an occurrence in every extension of `s`. */
  lemma {:induction false} ContainsInAppend(a: string, s: string, b: string, k: string)
    requires Contains(s, k)
    ensures Contains(a + s + b, k)
  {
    ContainsIff(s, k);
    var i :| 0 <= i <= |s| && k <= s[i..];
    assert k <= (a + s + b)[|a| + i..];
    ContainsIff(a + s + b, k);
  }

  /** What occurs in a prefix occurs in the whole. */
  lemma ContainsInPrefix(s: string, p: string, k: string)
    requires Contains(s, k) && s <= p
    ensures Contains(p, k)
  {
    ContainsIff(s, k);
    var i :| 0 <= i <= |s| && k <= s[i..];
    assert k <= p[i..];
    ContainsIff(p, k);
  }

  predicate HasSuffix(s: string, t: string) {
    |t| <= |s| && s[|s| - |t|..] == t
  }

  /** How a three-part concatenation splits back into its parts. */
  lemma SplitConcat(h: string, w: string, t: string)
    ensures h <= h + w + t
    ensures (h + w + t)[|h|..] == w + t
    ensures HasSuffix(w + t, t)
    ensures (w + t)[..|w + t| - |t|] == w
  {
    assert (h + w + t)[|h|..] == w + t;
    assert (w + t)[|w + t| - |t|..] == t;
  }

  /** A non-empty suffix ends in the same character as the whole. */
  lemma SuffixSharesLast(s: string, t: string)
    ensures HasSuffix(s, t) && |t| > 0 ==> s[|s| - 1] == t[|t| - 1]
  {
    if HasSuffix(s, t) && |t| > 0 {
      assert s[|s| - 1] == s[|s| - |t|..][|t| - 1];
    }
  }

  /**
   * The characters `trim` removes: the WhiteSpace and LineTerminator
   * code points of ECMAScript.
   */
  predicate IsSpace(c: char) {
    || c == ' ' || ('\t' <= c <= '\r')
    || c == '\U{00A0}' || c == '\U{1680}' || ('\U{2000}' <= c <= '\U{200A}')
    || c == '\U{2028}' || c == '\U{2029}' || c == '\U{202F}' || c == '\U{205F}'
    || c == '\U{3000}' || c == '\U{FEFF}'
  }

  predicate AllSpace(s: string) {
    forall i :: 0 <= i < |s| ==> IsSpace(s[i])
  }

  /** Drops leading white space: the result is the suffix of `s` left after it. */
  function TrimStart(s: string): (r: string)
    ensures |r| <= |s| && r == s[|s| - |r|..]
    ensures AllSpace(s[..|s| - |r|])
    ensures r == [] || !IsSpace(r[0])
  {
    if |s| > 0 && IsSpace(s[0]) then
      var r := TrimStart(s[1..]);
      SpaceThenRest(s, r);
      r
    else s
  }

  /** What trimming the tail of `s` leaves is what trimming `s` leaves when `s` opens with white space. */
  lemma SpaceThenRest(s: string, r: string)
    requires |s| > 0 && IsSpace(s[0])
    requires |r| <= |s[1..]| && r == s[1..][|s[1..]| - |r|..]
    requires AllSpace(s[1..][..|s[1..]| - |r|])
    ensures |r| <= |s| && r == s[|s| - |r|..]
    ensures AllSpace(s[..|s| - |r|])
  {
    var n := |s| - |r|;
    assert s[1..][|s[1..]| - |r|..] == s[n..];
    forall k | 0 < k < n
      ensures IsSpace(s[k])
    {
      assert s[k] == s[1..][..n - 1][k - 1];
    }
  }

  /** Drops trailing white space: the result is the prefix of `s` left before it. */
  function TrimEnd(s: string): (r: string)
    ensures r <= s
    ensures AllSpace(s[|r|..])
    ensures r == [] || !IsSpace(r[|r| - 1])
  {
    if |s| > 0 && IsSpace(s[|s| - 1]) then TrimEnd(s[..|s| - 1]) else s
  }

  /** `trim`: the slice of `s` between its leading and trailing white space. */
  function Trim(s: string): (r: string)
    ensures exists i, j :: 0 <= i <= j <= |s| && r == s[i..j] && AllSpace(s[..i]) && AllSpace(s[j..])
    ensures r == [] || (!IsSpace(r[0]) && !IsSpace(r[|r| - 1]))
  {
    var t := TrimStart(s);
    var r := TrimEnd(t);
    TrimSlices(s, t, r);
    r
  }

  /** Where the two halves of `Trim` cut `s`. */
  lemma TrimSlices(s: string, t: string, r: string)
    requires |t| <= |s| && t == s[|s| - |t|..] && AllSpace(s[..|s| - |t|])
    requires r <= t && AllSpace(t[|r|..])
    requires t == [] || !IsSpace(t[0])
    requires r == [] || !IsSpace(r[|r| - 1])
    ensures exists i, j :: 0 <= i <= j <= |s| && r == s[i..j] && AllSpace(s[..i]) && AllSpace(s[j..])
    ensures r == [] || (!IsSpace(r[0]) && !IsSpace(r[|r| - 1]))
  {
    var i := |s| - |t|;
    var j := i + |r|;
    assert r == t[..|r|];
    assert forall k :: 0 <= k < |r| ==> r[k] == s[i + k];
    assert forall k :: j <= k < |s| ==> s[k] == t[k - i];
    assert r == s[i..j] && AllSpace(s[..i]) && AllSpace(s[j..]);
    if r != [] {
      assert r[0] == t[0];
    }
  }

  /** A string with no white space at either end is its own trim. */
  lemma TrimNoEdges(s: string)
    requires s == [] || (!IsSpace(s[0]) && !IsSpace(s[|s| - 1]))
    ensures Trim(s) == s
  {
    assert TrimStart(s) == s;
    assert TrimEnd(s) == s;
  }

  /** Trimming a trimmed string changes nothing. */
  lemma TrimIdempotent(s: string)
    ensures Trim(Trim(s)) == Trim(s)
  {
  }

  /** A string trims to nothing exactly when it is all white space. */
  lemma TrimEmptyIff(s: string)
    ensures Trim(s) == [] <==> AllSpace(s)
  {
  }

  /** `xs.join(sep)`. */
  function Join(xs: seq<string>, sep: string): string
    decreases |xs|
  {
    if |xs| == 0 then ""
    else if |xs| == 1 then xs[0]
    else xs[0] + sep + Join(xs[1..], sep)
  }

  /** Joining one more item appends the separator and that item. */
  lemma {:induction false} JoinSnoc(xs: seq<string>, y: string, sep: string)
    requires |xs| > 0
    ensures Join(xs + [y], sep) == Join(xs, sep) + sep + y
    decreases |xs|
  {
    if |xs| > 1 {
      assert (xs + [y])[1..] == xs[1..] + [y];
      JoinSnoc(xs[1..], y, sep);
    } else {
      assert (xs + [y])[1..] == [y];
    }
  }
}
