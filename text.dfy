/** Python's `str.strip()` with no argument: removes the whitespace at both
    ends of a string and keeps everything in between. */
module Text {

  /** Python 3's whitespace characters (those `str.isspace` accepts): the
      ASCII controls TAB..CR and FS..US, SPACE, and the Unicode separators. */
  predicate IsWhitespace(c: char) {
    ('\U{0009}' <= c <= '\U{000D}') || ('\U{001C}' <= c <= '\U{0020}')
    || c == '\U{0085}' || c == '\U{00A0}' || c == '\U{1680}'
    || ('\U{2000}' <= c <= '\U{200A}') || c == '\U{2028}' || c == '\U{2029}'
    || c == '\U{202F}' || c == '\U{205F}' || c == '\U{3000}'
  }

  ghost predicate AllWhitespace(s: string) {
    forall k :: 0 <= k < |s| ==> IsWhitespace(s[k])
  }

  /** Number of whitespace characters at the front of `s`. */
  function LeadingWhitespace(s: string): (n: nat)
    ensures n <= |s|
    ensures forall k :: 0 <= k < n ==> IsWhitespace(s[k])
    ensures n < |s| ==> !IsWhitespace(s[n])
  {
    if s == [] || !IsWhitespace(s[0]) then 0
    else
      var m := LeadingWhitespace(s[1..]);
      assert forall k :: 1 <= k < 1 + m ==> s[k] == s[1..][k - 1];
      1 + m
  }

  /** Number of whitespace characters at the end of `s`. */
  function TrailingWhitespace(s: string): (n: nat)
    ensures n <= |s|
    ensures forall k :: |s| - n <= k < |s| ==> IsWhitespace(s[k])
    ensures n < |s| ==> !IsWhitespace(s[|s| - 1 - n])
  {
    if s == [] || !IsWhitespace(s[|s| - 1]) then 0
    else
      var m := TrailingWhitespace(s[..|s| - 1]);
      assert forall k :: |s| - 1 - m <= k < |s| - 1 ==> s[k] == s[..|s| - 1][k];
      1 + m
  }

  /** Where the stripped text ends: before the trailing whitespace, or at
      the end when the whole string is whitespace. */
  function StripEnd(s: string): (j: nat)
    ensures LeadingWhitespace(s) <= j <= |s|
    ensures forall k :: j <= k < |s| ==> IsWhitespace(s[k])
    ensures LeadingWhitespace(s) < j ==> !IsWhitespace(s[j - 1])
  {
    var i := LeadingWhitespace(s);
    if i == |s| then |s|
    else
      var n := TrailingWhitespace(s);
      assert i < |s| - n;
      |s| - n
  }

  /** `s.strip()`: the result starts and ends with a non-whitespace character,
      or is empty. */
  function Strip(s: string): (r: string)
    ensures r == [] || (!IsWhitespace(r[0]) && !IsWhitespace(r[|r| - 1]))
  {
    s[LeadingWhitespace(s) .. StripEnd(s)]
  }

  /** `s[i..j]` is what remains of `s` once exactly its leading and trailing
      whitespace is removed. */
  ghost predicate Trimmed(s: string, i: int, j: int) {
    && 0 <= i <= j <= |s|
    && (forall k :: 0 <= k < i ==> IsWhitespace(s[k]))
    && (forall k :: j <= k < |s| ==> IsWhitespace(s[k]))
    && (i < j ==> !IsWhitespace(s[i]) && !IsWhitespace(s[j - 1]))
  }

  /** Strip returns a trimmed slice of its input, starting right after the
      leading whitespace. */
  lemma StripIsTrimmedSlice(s: string)
    ensures Trimmed(s, LeadingWhitespace(s), StripEnd(s))
    ensures Strip(s) == s[LeadingWhitespace(s) .. StripEnd(s)]
  {
  }

  /** Any trimmed slice is the one Strip returns: together with
      StripIsTrimmedSlice this characterises Strip completely. */
  lemma StripUnique(s: string, i: int, j: int)
    requires Trimmed(s, i, j)
    ensures Strip(s) == s[i..j]
  {
    var l := LeadingWhitespace(s);
    if i == j {
      assert AllWhitespace(s);
      assert l == |s|;
    } else {
      assert l == i;
      assert StripEnd(s) == j;
    }
  }

  lemma StripIdempotent(s: string)
    ensures Strip(Strip(s)) == Strip(s)
  {
    var r := Strip(s);
    assert Trimmed(r, 0, |r|);
    StripUnique(r, 0, |r|);
    assert r[0..|r|] == r;
  }

  /** The stripped text is empty exactly when the input is whitespace only. */
  lemma StripBlank(s: string)
    ensures Strip(s) == [] <==> AllWhitespace(s)
  {
    StripIsTrimmedSlice(s);
    if AllWhitespace(s) {
      assert Trimmed(s, 0, 0);
      StripUnique(s, 0, 0);
    }
  }

  /** Surrounding whitespace makes no difference to the stripped text. */
  lemma StripIgnoresPadding(p: string, t: string, q: string)
    requires AllWhitespace(p) && AllWhitespace(q)
    ensures Strip(p + t + q) == Strip(t)
  {
    StripIsTrimmedSlice(t);
    StripOfPadded(p, t, q, LeadingWhitespace(t), StripEnd(t));
  }

  lemma StripOfPadded(p: string, t: string, q: string, i: int, j: int)
    requires AllWhitespace(p) && AllWhitespace(q) && Trimmed(t, i, j)
    ensures Strip(p + t + q) == t[i..j]
  {
    PaddedTrimmed(p, t, q, i, j);
    StripUnique(p + t + q, |p| + i, |p| + j);
    PaddedSlice(p, t, q, i, j);
  }

  lemma PaddedSlice(p: string, t: string, q: string, i: int, j: int)
    requires 0 <= i <= j <= |t|
    ensures (p + t + q)[|p| + i .. |p| + j] == t[i..j]
  {
    assert p + t + q == p + (t + q);
  }

  lemma PaddedTrimmed(p: string, t: string, q: string, i: int, j: int)
    requires AllWhitespace(p) && AllWhitespace(q) && Trimmed(t, i, j)
    ensures Trimmed(p + t + q, |p| + i, |p| + j)
  {
    var s := p + t + q;
    forall k | 0 <= k < |p| + i ensures IsWhitespace(s[k]) {
      if k < |p| { assert s[k] == p[k]; } else { assert s[k] == t[k - |p|]; }
    }
    forall k | |p| + j <= k < |s| ensures IsWhitespace(s[k]) {
      if k < |p| + |t| { assert s[k] == t[k - |p|]; } else { assert s[k] == q[k - |p| - |t|]; }
    }
    if i < j {
      assert s[|p| + i] == t[i] && s[|p| + j - 1] == t[j - 1];
    }
  }
}
