/** The ECMAScript notion of white space that both `String.prototype.trim`
    and the regular-expression class `\s` use, and `trim` itself. */
module JsText {

  /** WhiteSpace and LineTerminator code points of ECMAScript: tab, line feed,
      vertical tab, form feed, carriage return, space, no-break space, the
      Unicode space separators, line and paragraph separator and the byte
      order mark. */
  predicate IsSpace(c: char) {
    || c == '\t' || c == '\n' || c == '\U{000B}' || c == '\U{000C}' || c == '\r'
    || c == ' ' || c == '\U{00A0}' || c == '\U{1680}'
    || ('\U{2000}' <= c <= '\U{200A}')
    || c == '\U{2028}' || c == '\U{2029}' || c == '\U{202F}' || c == '\U{205F}'
    || c == '\U{3000}' || c == '\U{FEFF}'
  }

  predicate AllSpace(s: string) {
    forall i :: 0 <= i < |s| ==> IsSpace(s[i])
  }

  /** White space all through a concatenation is white space in each part. */
  lemma AllSpaceConcat(a: string, b: string)
    ensures AllSpace(a + b) <==> AllSpace(a) && AllSpace(b)
  {
    if AllSpace(a) && AllSpace(b) {
      forall i | 0 <= i < |a + b|
        ensures IsSpace((a + b)[i])
      {
        if i >= |a| {
          assert (a + b)[i] == b[i - |a|];
        }
      }
    }
    if AllSpace(a + b) {
      forall i | 0 <= i < |a|
        ensures IsSpace(a[i])
      {
        assert (a + b)[i] == a[i];
      }
      forall i | 0 <= i < |b|
        ensures IsSpace(b[i])
      {
        assert (a + b)[|a| + i] == b[i];
      }
    }
  }

  /** Drops leading white space: the result is a suffix of `s`, everything
      dropped is white space and the result does not start with white space. */
  function TrimStart(s: string): (t: string)
    ensures |t| <= |s| && t == s[|s| - |t|..]
    ensures AllSpace(s[..|s| - |t|])
    ensures t != [] ==> !IsSpace(t[0])
  {
    if s != [] && IsSpace(s[0]) then
      var t := TrimStart(s[1..]);
      var k := |s| - |t|;
      assert s[..k] == [s[0]] + s[1..][..k - 1];
      AllSpaceConcat([s[0]], s[1..][..k - 1]);
      t
    else
      s
  }

  /** Drops trailing white space: the result is a prefix of `s`, everything
      dropped is white space and the result does not end with white space. */
  function TrimEnd(s: string): (t: string)
    ensures |t| <= |s| && t == s[..|t|]
    ensures AllSpace(s[|t|..])
    ensures t != [] ==> !IsSpace(t[|t| - 1])
  {
    if s != [] && IsSpace(s[|s| - 1]) then
      var t := TrimEnd(s[..|s| - 1]);
      assert s[..|s| - 1][..|t|] == s[..|t|];
      assert s[|t|..] == s[..|s| - 1][|t|..] + [s[|s| - 1]];
      AllSpaceConcat(s[..|s| - 1][|t|..], [s[|s| - 1]]);
      t
    else
      s
  }

  /** `String.prototype.trim`. */
  function Trim(s: string): (t: string)
  {
    TrimEnd(TrimStart(s))
  }

  /** A trimmed string is a contiguous piece of the original with only white
      space around it. */
  lemma TrimIsInnerSlice(s: string)
    ensures exists i, j ::
      && 0 <= i <= j <= |s| && Trim(s) == s[i..j]
      && AllSpace(s[..i]) && AllSpace(s[j..])
  {
    var u := TrimStart(s);
    var t := TrimEnd(u);
    var i := |s| - |u|;
    SliceOfSuffix(s, i, |t|);
  }

  /** What `trim()` returns neither starts nor ends with white space. */
  lemma TrimHasNoOuterSpace(s: string)
    ensures Trim(s) != [] ==> !IsSpace(Trim(s)[0]) && !IsSpace(Trim(s)[|Trim(s)| - 1])
  {
    var u := TrimStart(s);
    var t := TrimEnd(u);
    if t != [] {
      assert t[0] == u[0];
    }
  }

  /** Taking a prefix or a suffix of the suffix `s[i..]`. */
  lemma SliceOfSuffix(s: string, i: nat, k: nat)
    requires i + k <= |s|
    ensures s[i..][..k] == s[i..i + k]
    ensures s[i..][k..] == s[i + k..]
  {
  }

  /** `!value.trim()` holds exactly when the value is empty or all white space. */
  lemma TrimEmptyIffAllSpace(s: string)
    ensures Trim(s) == [] <==> AllSpace(s)
  {
    var u := TrimStart(s);
    // what TrimStart keeps starts with a non-space character of s
    if u != [] {
      assert u[0] == s[|s| - |u|];
    }
    // what TrimStart drops is all of s when it keeps nothing
    assert s[..|s|] == s;
    // TrimEnd keeps nothing only when all of u is white space
    assert u[0..] == u;
  }
}
