/** The three JavaScript string primitives the components rely on:
    `String.prototype.trim`, `startsWith` and `padStart`. */
module Text {

  /** The characters `trim` removes: ECMAScript's WhiteSpace and LineTerminator sets. */
  predicate IsWhitespace(c: char)
  {
    var n := c as int;
    n == 0x09 || n == 0x0A || n == 0x0B || n == 0x0C || n == 0x0D || n == 0x20 ||
    n == 0xA0 || n == 0x1680 || (0x2000 <= n <= 0x200A) || n == 0x2028 || n == 0x2029 ||
    n == 0x202F || n == 0x205F || n == 0x3000 || n == 0xFEFF
  }

  predicate IsBlank(s: string)
  {
    forall i :: 0 <= i < |s| ==> IsWhitespace(s[i])
  }

  /** Drops leading whitespace: the result is a suffix of `s`, what was dropped is blank,
      and the result does not start with whitespace. */
  function TrimStart(s: string): (r: string)
    ensures |r| <= |s| && r == s[|s| - |r|..]
    ensures IsBlank(s[..|s| - |r|])
    ensures r == [] || !IsWhitespace(r[0])
  {
    if s != [] && IsWhitespace(s[0]) then
      var r := TrimStart(s[1..]);
      assert s[..|s| - |r|] == [s[0]] + s[1..][..|s| - 1 - |r|];
      r
    else
      s
  }

  /** Drops trailing whitespace: the result is a prefix of `s`, what was dropped is blank,
      and the result does not end with whitespace. */
  function TrimEnd(s: string): (r: string)
    ensures |r| <= |s| && r == s[..|r|]
    ensures IsBlank(s[|r|..])
    ensures r == [] || !IsWhitespace(r[|r| - 1])
  {
    if s != [] && IsWhitespace(s[|s| - 1]) then
      var r := TrimEnd(s[..|s| - 1]);
      assert s[|r|..] == s[..|s| - 1][|r|..] + [s[|s| - 1]];
      r
    else
      s
  }

  /** `s.trim()`: neither end of the result is whitespace; `TrimIsInfix` says what part
      of the input it is. */
  function Trim(s: string): (r: string)
    ensures |r| <= |s|
    ensures r == [] || (!IsWhitespace(r[0]) && !IsWhitespace(r[|r| - 1]))
  {
    TrimEnd(TrimStart(s))
  }

  /** `r` is the stretch of `s` that starts at `k`, and everything of `s` before and after
      that stretch is whitespace. */
  predicate BlankBordered(s: string, k: nat, r: string)
  {
    k + |r| <= |s| && r == s[k..k + |r|] && IsBlank(s[..k]) && IsBlank(s[k + |r|..])
  }

  /** `trim` returns the input without its leading and trailing whitespace: the result is
      the stretch of the input that starts after its `k` leading whitespace characters,
      and only whitespace lies before and after it. */
  lemma {:induction false} TrimIsInfix(s: string)
    ensures BlankBordered(s, |s| - |TrimStart(s)|, Trim(s))
  {
    InfixOfSuffix(s, TrimStart(s), Trim(s));
  }

  /** A blank-bordered prefix of a blank-bordered suffix is a blank-bordered infix. */
  lemma InfixOfSuffix(s: string, t: string, r: string)
    requires |t| <= |s| && t == s[|s| - |t|..] && IsBlank(s[..|s| - |t|])
    requires |r| <= |t| && r == t[..|r|] && IsBlank(t[|r|..])
    ensures BlankBordered(s, |s| - |t|, r)
  {
    var k := |s| - |t|;
    assert s[k + |r|..] == t[|r|..];
  }

  /** A string trims to the empty string exactly when every character of it is whitespace. */
  lemma {:induction false} TrimEmptyIffBlank(s: string)
    ensures Trim(s) == [] <==> IsBlank(s)
  {
    var t := TrimStart(s);
    if t != [] {
      assert t[0] == s[|s| - |t|];
    }
    if Trim(s) == [] {
      assert IsBlank(t[0..]);
      assert s[..|s|] == s;
    }
  }

  /** `s.startsWith(prefix)`. */
  predicate StartsWith(s: string, prefix: string)
  {
    |prefix| <= |s| && s[..|prefix|] == prefix
  }

  /** `startsWith` compares character by character: the prefix fits and every one of its
      characters is at the same position in `s`. */
  lemma StartsWithPointwise(s: string, prefix: string)
    ensures StartsWith(s, prefix) <==>
      |prefix| <= |s| && forall i :: 0 <= i < |prefix| ==> s[i] == prefix[i]
  {
    if |prefix| <= |s| && forall i :: 0 <= i < |prefix| ==> s[i] == prefix[i] {
      assert s[..|prefix|] == prefix;
    }
  }

  /** Among ASCII characters `trim` removes exactly tab, line feed, vertical tab, form
      feed, carriage return and space; beyond ASCII it also removes the no-break space,
      the byte order mark and the line and paragraph separators. */
  lemma WhitespaceSet(c: char)
    ensures c as int < 0x80 ==>
      (IsWhitespace(c) <==> c as int in {0x09, 0x0A, 0x0B, 0x0C, 0x0D, 0x20})
    ensures c as int in {0xA0, 0xFEFF, 0x2028, 0x2029} ==> IsWhitespace(c)
  {
  }

  /** `s.padStart(width, fill)` for a one-character fill string: the result ends with `s`,
      is `width` long when `s` was shorter, and is filled on the left. */
  function PadStart(s: string, width: nat, fill: char): (r: string)
    ensures |r| == if |s| >= width then |s| else width
    ensures r[|r| - |s|..] == s
    ensures forall i :: 0 <= i < |r| - |s| ==> r[i] == fill
  {
    if |s| >= width then s else seq(width - |s|, _ => fill) + s
  }
}
