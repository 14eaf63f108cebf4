/**
 * String helpers shared by every screen: an approximation of ECMAScript's
 * `String.prototype.trim`, which strips WhiteSpace and LineTerminator code
 * points from both ends of a string.
 */
module Text {

  /** The code points ECMAScript counts as WhiteSpace (TAB, VT, FF, SP, NBSP,
      ZWNBSP and the Unicode category Zs) or LineTerminator (LF, CR, LS, PS). */
  predicate IsWhitespace(c: char)
    ensures c == ' ' || c == '\t' || c == '\n' || c == '\r' ==> IsWhitespace(c)
    ensures '0' <= c <= '9' || 'a' <= c <= 'z' || 'A' <= c <= 'Z' ==> !IsWhitespace(c)
  {
    || c == '\t' || c == '\U{000B}' || c == '\U{000C}' || c == ' '
    || c == '\U{00A0}' || c == '\U{FEFF}'
    || c == '\n' || c == '\r' || c == '\U{2028}' || c == '\U{2029}'
    || c == '\U{1680}' || ('\U{2000}' <= c <= '\U{200A}')
    || c == '\U{202F}' || c == '\U{205F}' || c == '\U{3000}'
  }

  predicate AllWhitespace(s: string) {
    forall i :: 0 <= i < |s| ==> IsWhitespace(s[i])
  }

  /** `s.length` in JavaScript: the number of UTF-16 code units, one per code
      point of the Basic Multilingual Plane and two (a surrogate pair) per
      code point above it. */
  function Utf16Length(s: string): (n: nat)
    ensures |s| <= n <= 2 * |s|
    ensures n == |s| <==> forall i :: 0 <= i < |s| ==> s[i] <= '\U{FFFF}'
  {
    if s == [] then 0
    else (if s[0] <= '\U{FFFF}' then 1 else 2) + Utf16Length(s[1..])
  }

  /** Drops the longest all-whitespace prefix. */
  function TrimStart(s: string): (r: string)
    ensures |r| <= |s|
  {
    if s != [] && IsWhitespace(s[0]) then TrimStart(s[1..]) else s
  }

  /** Drops the longest all-whitespace suffix. */
  function TrimEnd(s: string): (r: string)
    ensures |r| <= |s|
  {
    if s != [] && IsWhitespace(s[|s| - 1]) then TrimEnd(s[..|s| - 1]) else s
  }

  /** `s.trim()`: what is left of `s` once its leading and trailing
      whitespace are gone. */
  function Trim(s: string): (r: string)
    ensures |r| <= |s|
  {
    TrimEnd(TrimStart(s))
  }

  /** TrimStart keeps a suffix of `s`, drops only whitespace, and stops at the
      first character that is not whitespace. */
  lemma {:induction false} TrimStartSpec(s: string)
    ensures var r := TrimStart(s);
      && r == s[|s| - |r|..]
      && AllWhitespace(s[..|s| - |r|])
      && (r == [] || !IsWhitespace(r[0]))
  {
    if s != [] && IsWhitespace(s[0]) {
      TrimStartSpec(s[1..]);
      var r := TrimStart(s);
      assert s[..|s| - |r|] == [s[0]] + s[1..][..|s| - 1 - |r|];
    }
  }

  /** TrimEnd keeps a prefix of `s`, drops only whitespace, and stops at the
      last character that is not whitespace. */
  lemma {:induction false} TrimEndSpec(s: string)
    ensures var r := TrimEnd(s);
      && r == s[..|r|]
      && AllWhitespace(s[|r|..])
      && (r == [] || !IsWhitespace(r[|r| - 1]))
  {
    if s != [] && IsWhitespace(s[|s| - 1]) {
      var t := s[..|s| - 1];
      TrimEndSpec(t);
      var r := TrimEnd(s);
      assert s[|r|..] == t[|r|..] + [s[|s| - 1]];
    }
  }

  /** Trim keeps a contiguous middle part of `s`, surrounded by whitespace
      only, and the part neither starts nor ends with whitespace. */
  lemma TrimSpec(s: string)
    ensures var r := Trim(s); var k := |s| - |TrimStart(s)|;
      && k + |r| <= |s| && r == s[k..k + |r|]
      && AllWhitespace(s[..k]) && AllWhitespace(s[k + |r|..])
      && (r == [] || (!IsWhitespace(r[0]) && !IsWhitespace(r[|r| - 1])))
  {
    var t := TrimStart(s);
    var k := |s| - |t|;
    TrimStartSpec(s);
    TrimEndSpec(t);
    var r := TrimEnd(t);
    assert t == s[k..];
    assert r == t[..|r|] == s[k..k + |r|];
    assert s[k + |r|..] == t[|r|..];
  }

  /** A string trims to nothing exactly when every character is whitespace
      (`s.trim() === ''`, and `!s.trim()` in a boolean context). */
  lemma TrimEmptyIff(s: string)
    ensures Trim(s) == [] <==> AllWhitespace(s)
  {
    var t := TrimStart(s);
    var k := |s| - |t|;
    TrimStartSpec(s);
    TrimEndSpec(t);
    if Trim(s) == [] {
      assert t[|TrimEnd(t)|..] == t;
      assert t == [];
      assert s[..k] == s;
    }
  }

  /** Trimming twice is trimming once. */
  lemma TrimIdempotent(s: string)
    ensures Trim(Trim(s)) == Trim(s)
  {
    TrimSpec(s);
    var r := Trim(s);
    assert TrimStart(r) == r;
    assert TrimEnd(r) == r;
  }
}
