/**
 * `String.prototype.trim` as defined by ECMA-262: the TrimString operation of
 * section 22.1.3 removes leading and trailing white space, where white space
 * is the union of the WhiteSpace code points (section 12.2) and the
 * LineTerminator code points (section 12.3).
 */
module JsStrings {

  /**
   * WhiteSpace: TAB, VT, FF, ZWNBSP and every Space_Separator (Zs) code point;
   * LineTerminator: LF, CR, LINE SEPARATOR and PARAGRAPH SEPARATOR.
   */
  predicate IsWs(c: char) {
    // WhiteSpace, explicit code points
    || c == '\U{0009}' || c == '\U{000B}' || c == '\U{000C}' || c == '\U{FEFF}'
    // WhiteSpace, general category Zs
    || c == '\U{0020}' || c == '\U{00A0}' || c == '\U{1680}'
    || ('\U{2000}' <= c <= '\U{200A}')
    || c == '\U{202F}' || c == '\U{205F}' || c == '\U{3000}'
    // LineTerminator
    || c == '\U{000A}' || c == '\U{000D}' || c == '\U{2028}' || c == '\U{2029}'
  }

  /** Every code point of `s` is white space (vacuously so for ""). */
  ghost predicate AllWs(s: string) {
    forall k :: 0 <= k < |s| ==> IsWs(s[k])
  }

  /** `s` neither starts nor ends with white space. */
  ghost predicate NoEdgeWs(s: string) {
    s == [] || (!IsWs(s[0]) && !IsWs(s[|s| - 1]))
  }

  /** `s` has at least one code point that is not white space. */
  ghost predicate HasNonWs(s: string) {
    exists k :: 0 <= k < |s| && !IsWs(s[k])
  }

  /**
   * Cutting `s` at `i` and `j` removes exactly its leading and trailing white
   * space: everything before `i` and from `j` on is white space, and the part
   * kept neither starts nor ends with white space.
   */
  ghost predicate StripsTo(s: string, i: int, j: int) {
    && 0 <= i <= j <= |s|
    && AllWs(s[..i])
    && AllWs(s[j..])
    && NoEdgeWs(s[i..j])
  }

  /** Removing leading white space: the result is a suffix of `s`. */
  function TrimStart(s: string): (r: string)
    ensures |r| <= |s| && r == s[|s| - |r|..]
    ensures AllWs(s[..|s| - |r|])
    ensures r == [] || !IsWs(r[0])
  {
    if |s| > 0 && IsWs(s[0]) then
      var r := TrimStart(s[1..]);
      assert s[..|s| - |r|] == [s[0]] + s[1..][..|s| - 1 - |r|];
      r
    else s
  }

  /** Removing trailing white space: the result is a prefix of `s`. */
  function TrimEnd(s: string): (r: string)
    ensures |r| <= |s| && r == s[..|r|]
    ensures AllWs(s[|r|..])
    ensures r == [] || !IsWs(r[|r| - 1])
  {
    if |s| > 0 && IsWs(s[|s| - 1]) then
      TrimEnd(s[..|s| - 1])
    else s
  }

  /**
   * Removing leading white space to get `a` and then trailing white space to
   * get `r` keeps the slice of a cut that strips `s`.
   */
  lemma TrimStartEndStrips(s: string, a: string, r: string)
    requires |a| <= |s| && a == s[|s| - |a|..] && AllWs(s[..|s| - |a|]) && (a == [] || !IsWs(a[0]))
    requires |r| <= |a| && r == a[..|r|] && AllWs(a[|r|..]) && (r == [] || !IsWs(r[|r| - 1]))
    ensures StripsTo(s, |s| - |a|, |s| - |a| + |r|)
    ensures r == s[|s| - |a|..|s| - |a| + |r|]
  {
    var i := |s| - |a|;
    var j := i + |r|;
    assert s[j..] == a[|r|..];
    if r != [] {
      assert r[0] == a[0];
    }
  }

  /**
   * TrimString(s, start+end): the slice of `s` left after removing its
   * leading and trailing white space.
   */
  function Trim(s: string): (r: string)
    ensures exists i, j :: StripsTo(s, i, j) && r == s[i..j]
  {
    var a := TrimStart(s);
    var r := TrimEnd(a);
    TrimStartEndStrips(s, a, r);
    r
  }

  /** Spelling out AllWs on a prefix of `s` in terms of `s` itself. */
  lemma PrefixWs(s: string, i: int)
    requires 0 <= i <= |s| && AllWs(s[..i])
    ensures forall k :: 0 <= k < i ==> IsWs(s[k])
  {
    assert forall k :: 0 <= k < i ==> s[..i][k] == s[k];
  }

  /** Spelling out AllWs on a suffix of `s` in terms of `s` itself. */
  lemma SuffixWs(s: string, j: int)
    requires 0 <= j <= |s| && AllWs(s[j..])
    ensures forall k :: j <= k < |s| ==> IsWs(s[k])
  {
    assert forall k :: j <= k < |s| ==> s[j..][k - j] == s[k];
  }

  /** A cut keeps nothing exactly when all of `s` is white space. */
  lemma CutEmptyIffAllWs(s: string, i: int, j: int)
    requires StripsTo(s, i, j)
    ensures i == j <==> AllWs(s)
  {
    PrefixWs(s, i);
    SuffixWs(s, j);
    if i < j {
      assert s[i..j][0] == s[i];
    }
  }

  /** Two ways of removing the leading and trailing white space of `s` keep the same slice. */
  lemma {:induction false} StripsToUnique(s: string, i: int, j: int, i': int, j': int)
    requires StripsTo(s, i, j) && StripsTo(s, i', j')
    ensures s[i..j] == s[i'..j']
  {
    CutEmptyIffAllWs(s, i, j);
    CutEmptyIffAllWs(s, i', j');
    if !AllWs(s) {
      PrefixWs(s, i);
      PrefixWs(s, i');
      SuffixWs(s, j);
      SuffixWs(s, j');
      assert s[i..j][0] == s[i] && s[i'..j'][0] == s[i'];
      assert s[i..j][j - i - 1] == s[j - 1] && s[i'..j'][j' - i' - 1] == s[j' - 1];
    }
  }

  /**
   * Trim is exactly the removal of leading and trailing white space: `t` is
   * the trim of `s` if and only if it is the slice some such cut keeps.
   */
  lemma TrimCharacterized(s: string, t: string)
    ensures t == Trim(s) <==> exists i, j :: StripsTo(s, i, j) && t == s[i..j]
  {
    var r := Trim(s);
    var i, j :| StripsTo(s, i, j) && r == s[i..j];
    if exists i', j' :: StripsTo(s, i', j') && t == s[i'..j'] {
      var i', j' :| StripsTo(s, i', j') && t == s[i'..j'];
      StripsToUnique(s, i, j, i', j');
    }
  }

  /** The trimmed string has no white space at either end. */
  lemma TrimNoEdgeWs(s: string)
    ensures NoEdgeWs(Trim(s))
  {
  }

  /** Trimming twice is trimming once. */
  lemma TrimIdempotent(s: string)
    ensures Trim(Trim(s)) == Trim(s)
  {
    var t := Trim(s);
    TrimNoEdgeWs(s);
    assert t[..0] == [] && t[|t|..] == [] && t[0..|t|] == t;
    assert StripsTo(t, 0, |t|);
    TrimCharacterized(t, t);
  }

  /** The trim is empty exactly when `s` is all white space. */
  lemma TrimEmptyIffAllWs(s: string)
    ensures Trim(s) == [] <==> AllWs(s)
  {
    var r := Trim(s);
    var i, j :| StripsTo(s, i, j) && r == s[i..j];
    CutEmptyIffAllWs(s, i, j);
    if AllWs(s) {
      assert s[..0] == [] && s[0..] == s;
      assert StripsTo(s, 0, 0);
      TrimCharacterized(s, []);
    }
  }

  /** A string survives the presence check (a non-empty trim) iff it has a non-white-space code point. */
  lemma TrimNonEmptyIffHasNonWs(s: string)
    ensures Trim(s) != [] <==> HasNonWs(s)
  {
    TrimEmptyIffAllWs(s);
  }
}
