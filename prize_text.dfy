/** The normalisation the add handler applies to a typed prize label:
    `value.trim().toUpperCase()` (script.js:321). */
module PrizeText {

  /** The characters `String.prototype.trim` removes: ECMAScript WhiteSpace
      (tab, vertical tab, form feed, space, no-break space, the byte order
      mark and the Unicode space separators) and LineTerminator. */
  predicate IsWhitespace(c: char)
  {
    || c == '\t' || c == '\U{000B}' || c == '\U{000C}' || c == ' ' || c == '\U{00A0}'
    || c == '\U{FEFF}' || c == '\U{1680}' || ('\U{2000}' <= c <= '\U{200A}')
    || c == '\U{202F}' || c == '\U{205F}' || c == '\U{3000}'
    || c == '\n' || c == '\r' || c == '\U{2028}' || c == '\U{2029}'
  }

  predicate AllWhitespace(s: string)
  {
    forall i :: 0 <= i < |s| ==> IsWhitespace(s[i])
  }

  /** `s` with its leading whitespace removed: a suffix of `s` that starts
      with a non-whitespace character, everything before it whitespace. */
  function TrimStart(s: string): (r: string)
    ensures |r| <= |s| && r == s[|s| - |r|..]
    ensures r == [] || !IsWhitespace(r[0])
    ensures AllWhitespace(s[..|s| - |r|])
  {
    if |s| > 0 && IsWhitespace(s[0]) then
      var r := TrimStart(s[1..]);
      assert s[1..][|s| - 1 - |r|..] == s[|s| - |r|..];
      assert forall i :: 0 < i < |s| - |r| ==> s[i] == s[1..][..|s| - 1 - |r|][i - 1];
      r
    else s
  }

  /** `s` with its trailing whitespace removed: a prefix of `s` that ends with
      a non-whitespace character, everything after it whitespace. */
  function TrimEnd(s: string): (r: string)
    ensures |r| <= |s| && r == s[..|r|]
    ensures r == [] || !IsWhitespace(r[|r| - 1])
    ensures AllWhitespace(s[|r|..])
  {
    if |s| > 0 && IsWhitespace(s[|s| - 1]) then
      var r := TrimEnd(s[..|s| - 1]);
      assert forall i :: |r| <= i < |s| - 1 ==> s[i] == s[..|s| - 1][|r|..][i - |r|];
      r
    else s
  }

  /** `String.prototype.trim`: the contiguous piece of `s` that starts
      after its `k` leading whitespace characters and ends before its
      trailing ones. Only whitespace is cut off, neither end of the result is
      whitespace, and nothing is left exactly when `s` is blank. */
  function Trim(s: string): (r: string)
    ensures var k := |s| - |TrimStart(s)|;
      k + |r| <= |s| && r == s[k..k + |r|]
    ensures var k := |s| - |TrimStart(s)|;
      k + |r| <= |s| && AllWhitespace(s[..k]) && AllWhitespace(s[k + |r|..])
    ensures r == [] || (!IsWhitespace(r[0]) && !IsWhitespace(r[|r| - 1]))
    ensures r == [] <==> AllWhitespace(s)
  {
    var t := TrimStart(s);
    var r := TrimEnd(t);
    PrefixOfSuffix(s, t, r);
    TrimmedEnds(t, r);
    TrimmedBlank(s, t, r);
    r
  }

  /** A prefix `r` of a suffix `t` of `s` is the slice of `s` starting where
      `t` starts, and what follows it in `s` is what follows it in `t`. */
  lemma PrefixOfSuffix(s: string, t: string, r: string)
    requires |t| <= |s| && t == s[|s| - |t|..]
    requires |r| <= |t| && r == t[..|r|]
    ensures var k := |s| - |t|;
      r == s[k..k + |r|] && s[k + |r|..] == t[|r|..]
  {
  }

  lemma TrimmedEnds(t: string, r: string)
    requires t == [] || !IsWhitespace(t[0])
    requires r == TrimEnd(t)
    ensures r == [] || (!IsWhitespace(r[0]) && !IsWhitespace(r[|r| - 1]))
  {
    if r != [] {
      assert r[0] == t[0];
    }
  }

  lemma TrimmedBlank(s: string, t: string, r: string)
    requires t == TrimStart(s) && r == TrimEnd(t)
    ensures r == [] <==> AllWhitespace(s)
  {
    var k := |s| - |t|;
    if r != [] {
      assert r[0] == t[0] == s[k];
    } else {
      assert t[|r|..] == t;
      assert k == |s|;
      assert s[..k] == s;
    }
  }

  /** Trimming twice is trimming once. */
  lemma TrimIdempotent(s: string)
    ensures Trim(Trim(s)) == Trim(s)
  {
    var r := Trim(s);
    if r != [] {
      assert TrimStart(r) == r;
      assert TrimEnd(r) == r;
    }
  }

  /** `toUpperCase` on one character, for the ASCII letters. */
  function UpperChar(c: char): (u: char)
    ensures 'a' <= c <= 'z' ==> u as int == c as int - 32
    ensures !('a' <= c <= 'z') ==> u == c
    ensures !('a' <= u <= 'z')
  {
    if 'a' <= c <= 'z' then (c as int - 32) as char else c
  }

  /** `String.prototype.toUpperCase`: every character mapped on its own, the
      length kept. */
  function ToUpper(s: string): (r: string)
    ensures |r| == |s|
    ensures forall i :: 0 <= i < |s| ==> r[i] == UpperChar(s[i])
  {
    if s == [] then [] else [UpperChar(s[0])] + ToUpper(s[1..])
  }

  /** The label a typed value becomes: the trimmed value with each character
      upper-cased. It has no lower-case ASCII letter and no whitespace at
      either end, and it is empty exactly when the typed value is blank. */
  function Label(input: string): (r: string)
    ensures |r| == |Trim(input)|
    ensures forall i :: 0 <= i < |r| ==> r[i] == UpperChar(Trim(input)[i])
    ensures forall i :: 0 <= i < |r| ==> !('a' <= r[i] <= 'z')
    ensures r == [] || (!IsWhitespace(r[0]) && !IsWhitespace(r[|r| - 1]))
    ensures r == [] <==> AllWhitespace(input)
  {
    ToUpper(Trim(input))
  }
}
