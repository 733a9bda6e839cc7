/**
 * JavaScript strings as sequences of UTF-16 code units, so that `|s|` is what
 * `s.length` reports, and the `trim()` operation on them.
 */
module Utf16 {

  newtype CodeUnit = x: int | 0 <= x < 0x1_0000

  type Text = seq<CodeUnit>

  /**
   * The code points ECMAScript's `trim()` removes: the WhiteSpace production
   * (TAB, VT, FF, ZWNBSP and every Space_Separator) and the LineTerminator
   * production (LF, CR, LS, PS). All of them lie in the Basic Multilingual
   * Plane, so a test on one code unit decides it.
   */
  predicate IsWhitespace(u: CodeUnit): (b: bool)
    ensures b ==> !(0xD800 <= u <= 0xDFFF)   // never half of a surrogate pair
    ensures b ==> u <= 0x3000 || u == 0xFEFF
  {
    || u == 0x0009 || u == 0x000B || u == 0x000C || u == 0xFEFF
    || u == 0x0020 || u == 0x00A0 || u == 0x1680 || (0x2000 <= u <= 0x200A)
    || u == 0x202F || u == 0x205F || u == 0x3000
    || u == 0x000A || u == 0x000D || u == 0x2028 || u == 0x2029
  }

  /** Every code unit of `s` is white space (the empty text included). */
  predicate IsBlank(s: Text) {
    forall i | 0 <= i < |s| :: IsWhitespace(s[i])
  }

  /** `s` without its leading white space. */
  function TrimStart(s: Text): (r: Text)
    ensures |r| <= |s| && r == s[|s| - |r|..]
    ensures IsBlank(s[..|s| - |r|])
    ensures r == [] || !IsWhitespace(r[0])
  {
    if s != [] && IsWhitespace(s[0]) then
      var r := TrimStart(s[1..]);
      assert s[1..][..|s| - 1 - |r|] == s[1..|s| - |r|];
      r
    else
      s
  }

  /** `s` without its trailing white space. */
  function TrimEnd(s: Text): (r: Text)
    ensures |r| <= |s| && r == s[..|r|]
    ensures IsBlank(s[|r|..])
    ensures r == [] || !IsWhitespace(r[|r| - 1])
  {
    if s != [] && IsWhitespace(s[|s| - 1]) then
      var r := TrimEnd(s[..|s| - 1]);
      assert s[..|s| - 1][|r|..] == s[|r|..|s| - 1];
      assert s[|r|..] == s[|r|..|s| - 1] + [s[|s| - 1]];
      r
    else
      s
  }

  /** `String.prototype.trim`: both ends stripped of white space. */
  function Trim(s: Text): (r: Text)
    ensures |r| <= |s|
    ensures r == [] || (!IsWhitespace(r[0]) && !IsWhitespace(r[|r| - 1]))
    ensures exists i, j | 0 <= i <= j <= |s| :: r == s[i..j] && IsBlank(s[..i]) && IsBlank(s[j..])
  {
    var t := TrimStart(s);
    var r := TrimEnd(t);
    TrimmedEndsAreBlank(s, t, r);
    r
  }

  /** Stripping a blank prefix and then a blank suffix leaves an infix between two blank parts. */
  lemma TrimmedEndsAreBlank(s: Text, t: Text, r: Text)
    requires |t| <= |s| && t == s[|s| - |t|..] && IsBlank(s[..|s| - |t|])
    requires |r| <= |t| && r == t[..|r|] && IsBlank(t[|r|..])
    ensures exists i, j | 0 <= i <= j <= |s| :: r == s[i..j] && IsBlank(s[..i]) && IsBlank(s[j..])
  {
    var i := |s| - |t|;
    var j := i + |r|;
    assert r == s[i..j] by {
      assert s[i..][..|r|] == s[i..j];
    }
    assert t[|r|..] == s[j..];
  }

  /** Trimming leaves nothing exactly when the text was blank. */
  lemma {:induction false} TrimEmptyIffBlank(s: Text)
    ensures Trim(s) == [] <==> IsBlank(s)
  {
    var t := TrimStart(s);
    if Trim(s) == [] {
      assert IsBlank(t[0..]);
      assert s == s[..|s| - |t|] + t;
    }
  }
}
