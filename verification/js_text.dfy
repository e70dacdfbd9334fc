/**
  The two pieces of JavaScript string semantics the session logic depends on:
  `String.prototype.trim` (as used by `!input.trim()`) and the truthiness of a
  string-or-null value (as used by `!uploadedFileUrl` and `data.message || …`).
  Characters are Unicode scalar values; JavaScript's UTF-16 code units are not modelled.
*/
module JsText {
  import opened Wrappers

  /** The code points that `trim` strips: ECMAScript WhiteSpace (tab, vertical tab,
      form feed, byte order mark and every space separator of category Zs) and
      LineTerminator (line feed, carriage return, line and paragraph separator).
      They are exactly the 25 code points of `TrimmedCodePoints`. */
  predicate IsJsWhitespace(c: char)
    ensures IsJsWhitespace(c) <==> c as int in TrimmedCodePoints
  {
    || c == '\t' || c == '\U{000B}' || c == '\U{000C}' || c == '\U{FEFF}'
    || c == ' ' || c == '\U{00A0}' || c == '\U{1680}'
    || ('\U{2000}' <= c <= '\U{200A}')
    || c == '\U{202F}' || c == '\U{205F}' || c == '\U{3000}'
    || c == '\n' || c == '\r' || c == '\U{2028}' || c == '\U{2029}'
  }

  /** The code points of WhiteSpace and LineTerminator, listed one by one. */
  const TrimmedCodePoints: set<int> := {
    0x0009, 0x000A, 0x000B, 0x000C, 0x000D, 0x0020, 0x00A0, 0x1680,
    0x2000, 0x2001, 0x2002, 0x2003, 0x2004, 0x2005, 0x2006, 0x2007, 0x2008, 0x2009, 0x200A,
    0x2028, 0x2029, 0x202F, 0x205F, 0x3000, 0xFEFF
  }

  predicate AllWhitespace(s: string)
  {
    forall i :: 0 <= i < |s| ==> IsJsWhitespace(s[i])
  }

  /** Drops the leading whitespace: the result is the suffix of `s` that starts
      at its first non-whitespace character. */
  function TrimStart(s: string): (r: string)
    ensures |r| <= |s| && r == s[|s| - |r|..]
    ensures AllWhitespace(s[..|s| - |r|])
    ensures r == [] || !IsJsWhitespace(r[0])
  {
    if s != [] && IsJsWhitespace(s[0]) then
      var r := TrimStart(s[1..]);
      var k := |s| - |r|;
      assert r == s[k..];
      assert AllWhitespace(s[..k]) by {
        forall i | 0 < i < k ensures IsJsWhitespace(s[..k][i]) {
          assert s[..k][i] == s[1..][..k - 1][i - 1];
        }
      }
      r
    else
      s
  }

  /** Drops the trailing whitespace: the result is the prefix of `s` that ends
      at its last non-whitespace character. */
  function TrimEnd(s: string): (r: string)
    ensures |r| <= |s| && r == s[..|r|]
    ensures AllWhitespace(s[|r|..])
    ensures r == [] || !IsJsWhitespace(r[|r| - 1])
  {
    if s != [] && IsJsWhitespace(s[|s| - 1]) then
      var r := TrimEnd(s[..|s| - 1]);
      assert r == s[..|r|];
      assert AllWhitespace(s[|r|..]) by {
        forall i | 0 <= i < |s| - |r| - 1 ensures IsJsWhitespace(s[|r|..][i]) {
          assert s[|r|..][i] == s[..|s| - 1][|r|..][i];
        }
      }
      r
    else
      s
  }

  /** `s.trim()`: `s` with its whitespace prefix and suffix removed. The result is
      the slice `s[k..k + |r|]` for some `k` with only whitespace outside it, it is
      empty exactly when `s` is all whitespace, and otherwise it starts and ends
      with a non-whitespace character. */
  function Trim(s: string): (r: string)
    ensures exists k :: IsTrimSlice(s, k, r)
    ensures r != [] ==> !IsJsWhitespace(r[0]) && !IsJsWhitespace(r[|r| - 1])
    ensures r == [] <==> AllWhitespace(s)
  {
    var t := TrimStart(s);
    var r := TrimEnd(t);
    TrimSliceOf(s, t, r);
    r
  }

  /** `r` is `s[k..k + |r|]` and everything of `s` outside that slice is whitespace. */
  predicate IsTrimSlice(s: string, k: int, r: string)
  {
    && 0 <= k <= k + |r| <= |s| && r == s[k..k + |r|]
    && AllWhitespace(s[..k]) && AllWhitespace(s[k + |r|..])
  }

  /** Glues the contracts of TrimStart (`t`) and TrimEnd (`r`) into those of Trim. */
  lemma TrimSliceOf(s: string, t: string, r: string)
    requires |t| <= |s| && t == s[|s| - |t|..] && AllWhitespace(s[..|s| - |t|])
    requires t == [] || !IsJsWhitespace(t[0])
    requires |r| <= |t| && r == t[..|r|] && AllWhitespace(t[|r|..])
    ensures IsTrimSlice(s, |s| - |t|, r)
    ensures r != [] ==> !IsJsWhitespace(r[0])
    ensures r == [] <==> AllWhitespace(s)
  {
  }

  /** `!s.trim()`: the trimmed string is the empty (falsy) string. */
  predicate IsBlank(s: string)
    ensures IsBlank(s) <==> AllWhitespace(s)
  {
    Trim(s) == []
  }

  /** JavaScript truthiness of a string that may be null or undefined: null,
      undefined and the empty string are falsy, every other string is truthy. */
  predicate Truthy(v: Option<string>)
  {
    v.Some? && v.value != []
  }
}
