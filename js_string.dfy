/**
 * The JavaScript string built-ins the user controller relies on:
 * String.prototype.trim, .length and .toLowerCase.
 */
module JsString {
  /**
   * The code points that trim removes: ECMAScript's WhiteSpace (tab, vertical
   * tab, form feed, space, no-break space, byte order mark and the Unicode
   * space separators) and LineTerminator (LF, CR, LS, PS).
   */
  predicate IsWhitespace(c: char) {
    var n := c as int;
    n == 0x09 || n == 0x0A || n == 0x0B || n == 0x0C || n == 0x0D || n == 0x20
    || n == 0xA0 || n == 0x1680 || (0x2000 <= n <= 0x200A) || n == 0x2028
    || n == 0x2029 || n == 0x202F || n == 0x205F || n == 0x3000 || n == 0xFEFF
  }

  /** Drops the leading whitespace: what is left is a suffix starting with a non-whitespace character. */
  function TrimStart(s: string): (r: string)
    ensures |r| <= |s| && r == s[|s| - |r|..]
    ensures forall i :: 0 <= i < |s| - |r| ==> IsWhitespace(s[i])
    ensures r != [] ==> !IsWhitespace(r[0])
  {
    if s != [] && IsWhitespace(s[0]) then TrimStart(s[1..]) else s
  }

  /** Drops the trailing whitespace: what is left is a prefix ending with a non-whitespace character. */
  function TrimEnd(s: string): (r: string)
    ensures |r| <= |s| && r == s[..|r|]
    ensures forall i :: |r| <= i < |s| ==> IsWhitespace(s[i])
    ensures r != [] ==> !IsWhitespace(r[|r| - 1])
  {
    if s != [] && IsWhitespace(s[|s| - 1]) then TrimEnd(s[..|s| - 1]) else s
  }

  /** `r` is the part of `s` that starts at `k`, with only whitespace before and after it. */
  ghost predicate Framed(s: string, k: nat, r: string) {
    && k + |r| <= |s|
    && r == s[k..k + |r|]
    && (forall i :: 0 <= i < k ==> IsWhitespace(s[i]))
    && (forall i :: k + |r| <= i < |s| ==> IsWhitespace(s[i]))
  }

  /**
   * String.prototype.trim: the result is the middle part of the input, with
   * only whitespace before and after it; it is empty exactly when the input is
   * all whitespace.
   */
  function Trim(s: string): (r: string)
    ensures exists k :: Framed(s, k, r)
    ensures r == [] <==> forall i :: 0 <= i < |s| ==> IsWhitespace(s[i])
    ensures r != [] ==> !IsWhitespace(r[0]) && !IsWhitespace(r[|r| - 1])
  {
    var front := TrimStart(s);
    var r := TrimEnd(front);
    var k := |s| - |front|;
    assert forall i :: k + |r| <= i < |s| ==> s[i] == front[i - k];
    assert Framed(s, k, r);
    r
  }

  /** The code points above U+FFFF, which UTF-16 writes as a surrogate pair. */
  predicate IsAstral(c: char) {
    c as int > 0xFFFF
  }

  /** The positions of the astral code points of a string. */
  ghost function AstralIndices(s: string): set<nat> {
    set i: nat | i < |s| && IsAstral(s[i])
  }

  /**
   * The number of UTF-16 code units, which is what .length counts: one per
   * code point, plus one more for each code point above U+FFFF.
   */
  function Utf16Length(s: string): (n: nat)
    ensures n == |s| + |AstralIndices(s)|
    ensures |s| <= n <= 2 * |s|
    ensures n == |s| <==> forall i :: 0 <= i < |s| ==> !IsAstral(s[i])
  {
    if s == [] then 0
    else
      var init := s[..|s| - 1];
      AstralIndicesOfInit(s);
      Utf16Length(init) + (if IsAstral(s[|s| - 1]) then 2 else 1)
  }

  /** The astral positions of a non-empty string: those of all but its last character, and possibly the last. */
  lemma AstralIndicesOfInit(s: string)
    requires s != []
    ensures |AstralIndices(s)| == |AstralIndices(s[..|s| - 1])| + (if IsAstral(s[|s| - 1]) then 1 else 0)
  {
    var last := |s| - 1;
    var init := AstralIndices(s[..last]);
    assert last !in init;
    if IsAstral(s[last]) {
      assert AstralIndices(s) == init + {last};
    } else {
      assert AstralIndices(s) == init;
    }
  }

  predicate IsAsciiUpper(c: char) {
    'A' <= c <= 'Z'
  }

  function ToLowerChar(c: char): (d: char)
    ensures !IsAsciiUpper(d)
    ensures IsAsciiUpper(c) ==> d as int == c as int + 32
    ensures !IsAsciiUpper(c) ==> d == c
  {
    if IsAsciiUpper(c) then (c as int + 32) as char else c
  }

  /** String.prototype.toLowerCase restricted to the ASCII letters: same length, no upper-case letter left. */
  function ToLower(s: string): (r: string)
    ensures |r| == |s|
    ensures forall i :: 0 <= i < |s| ==> r[i] == ToLowerChar(s[i])
  {
    if s == [] then [] else [ToLowerChar(s[0])] + ToLower(s[1..])
  }

  /** Lower-casing twice is lower-casing once, and a string without upper-case letters is its own lower case. */
  lemma ToLowerIdempotent(s: string)
    ensures ToLower(ToLower(s)) == ToLower(s)
    ensures (forall i :: 0 <= i < |s| ==> !IsAsciiUpper(s[i])) ==> ToLower(s) == s
  {
  }
}
