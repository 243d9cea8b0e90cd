/** The JavaScript string primitives the views rely on: `trim`, `toLowerCase` and
    `includes`. */
module Text {

  /** ECMAScript WhiteSpace and LineTerminator code points: the characters `trim`
      strips (tab, vertical tab, form feed, the space separators of category Zs,
      the byte order mark, and the four line terminators). */
  predicate IsWhitespace(c: char)
  {
    c == '\t' || c == '\n' || c == '\U{000B}' || c == '\U{000C}' || c == '\r' ||
    c == ' ' || c == '\U{00A0}' || c == '\U{1680}' ||
    ('\U{2000}' <= c <= '\U{200A}') ||
    c == '\U{2028}' || c == '\U{2029}' || c == '\U{202F}' || c == '\U{205F}' ||
    c == '\U{3000}' || c == '\U{FEFF}'
  }

  /** True when every character of `s` is whitespace (so `s.trim()` is empty). */
  predicate AllWhitespace(s: string)
  {
    forall i :: 0 <= i < |s| ==> IsWhitespace(s[i])
  }

  /** Number of leading whitespace characters. */
  function LeadingWhitespace(s: string): (k: nat)
    ensures k <= |s|
    ensures AllWhitespace(s[..k])
    ensures k < |s| ==> !IsWhitespace(s[k])
  {
    if s == [] || !IsWhitespace(s[0]) then 0
    else
      var k := 1 + LeadingWhitespace(s[1..]);
      assert forall i :: 1 <= i < k ==> s[..k][i] == s[1..][..k - 1][i - 1];
      k
  }

  /** Length of `s` once its trailing whitespace is cut off. */
  function TrailingStart(s: string): (k: nat)
    ensures k <= |s|
    ensures AllWhitespace(s[k..])
    ensures k > 0 ==> !IsWhitespace(s[k - 1])
  {
    if s == [] || !IsWhitespace(s[|s| - 1]) then |s|
    else
      var k := TrailingStart(s[..|s| - 1]);
      assert forall i :: 0 <= i < |s| - 1 - k ==> s[k..][i] == s[..|s| - 1][k..][i];
      k
  }

  /** `s.trim()`: `s` without its leading and trailing whitespace. */
  function Trim(s: string): (r: string)
    ensures |r| <= |s|
    ensures r == [] <==> AllWhitespace(s)
    ensures r != [] ==> !IsWhitespace(r[0]) && !IsWhitespace(r[|r| - 1])
    ensures exists a, b :: 0 <= a <= b <= |s| && r == s[a..b] && AllWhitespace(s[..a]) && AllWhitespace(s[b..])
  {
    var a := LeadingWhitespace(s);
    var t := s[a..];
    var b := TrailingStart(t);
    assert b > 0 ==> s[a + b - 1] == t[b - 1];
    assert a < |s| ==> t[0] == s[a] && b > 0;
    assert AllWhitespace(s) ==> a == |s|;
    assert t[..b] == s[a..a + b];
    assert s[a + b..] == t[b..];
    t[..b]
  }

  /** A trimmed string is its own trim. */
  lemma TrimIdempotent(s: string)
    ensures Trim(Trim(s)) == Trim(s)
  {
    var r := Trim(s);
    if r != [] {
      assert LeadingWhitespace(r) == 0;
      assert TrailingStart(r) == |r|;
    }
  }

  /** ASCII upper-case letters mapped to lower case; every other character unchanged. */
  function LowerChar(c: char): char
  {
    if 'A' <= c <= 'Z' then (c as int - 'A' as int + 'a' as int) as char else c
  }

  /** `s.toLowerCase()`, restricted to the ASCII letters. */
  function ToLower(s: string): (r: string)
    ensures |r| == |s|
    ensures forall i :: 0 <= i < |s| ==> r[i] == LowerChar(s[i])
  {
    if s == [] then [] else [LowerChar(s[0])] + ToLower(s[1..])
  }

  /** `s.includes(t)`: `t` occurs in `s` as a contiguous piece. */
  predicate Includes(s: string, t: string)
    decreases |s|
  {
    t <= s || (s != [] && Includes(s[1..], t))
  }

  /** `t` is the slice of `s` that starts at position `i`. */
  predicate OccursAt(s: string, t: string, i: int)
  {
    0 <= i && i + |t| <= |s| && s[i..i + |t|] == t
  }

  /** `includes` holds exactly when `t` is the slice of `s` at some position. */
  lemma {:induction false} IncludesAt(s: string, t: string)
    ensures Includes(s, t) <==> exists i :: OccursAt(s, t, i)
    decreases |s|
  {
    if t <= s {
      assert OccursAt(s, t, 0);
    } else if s == [] {
    } else {
      IncludesAt(s[1..], t);
      if Includes(s[1..], t) {
        var i :| OccursAt(s[1..], t, i);
        assert s[i + 1..i + 1 + |t|] == s[1..][i..i + |t|];
        assert OccursAt(s, t, i + 1);
      }
      if exists i :: OccursAt(s, t, i) {
        var i :| OccursAt(s, t, i);
        assert i != 0;
        assert s[1..][i - 1..i - 1 + |t|] == s[i..i + |t|];
        assert OccursAt(s[1..], t, i - 1);
      }
    }
  }
}
