/**
 * The string operations the frontend relies on: JavaScript's `String.prototype.trim`,
 * `toLowerCase` (restricted to ASCII letters) and `includes`.
 */
module Text {

  /** The characters `trim` removes: ECMAScript's WhiteSpace and LineTerminator code points. */
  predicate IsJsWhitespace(c: char) {
    || c == ' ' || c == '\t' || c == '\n' || c == '\r'
    || c == '\U{B}' || c == '\U{C}'
    || c == '\U{A0}' || c == '\U{1680}'
    || ('\U{2000}' <= c <= '\U{200A}')
    || c == '\U{2028}' || c == '\U{2029}' || c == '\U{202F}' || c == '\U{205F}'
    || c == '\U{3000}' || c == '\U{FEFF}'
  }

  /** A string made of whitespace only (the empty string included). */
  ghost predicate Blank(s: string) {
    forall i :: 0 <= i < |s| ==> IsJsWhitespace(s[i])
  }

  /** Drops leading whitespace. */
  function TrimStart(s: string): (r: string) {
    if s != [] && IsJsWhitespace(s[0]) then TrimStart(s[1..]) else s
  }

  /** `TrimStart` keeps a suffix that does not start with whitespace, and drops only whitespace. */
  lemma {:induction false} TrimStartSpec(s: string)
    ensures |TrimStart(s)| <= |s| && TrimStart(s) == s[|s| - |TrimStart(s)|..]
    ensures TrimStart(s) != [] ==> !IsJsWhitespace(TrimStart(s)[0])
    ensures forall i :: 0 <= i < |s| - |TrimStart(s)| ==> IsJsWhitespace(s[i])
  {
    if s != [] && IsJsWhitespace(s[0]) {
      var rest := s[1..];
      TrimStartSpec(rest);
      var t := TrimStart(rest);
      assert TrimStart(s) == t;
      assert rest[|rest| - |t|..] == s[|s| - |t|..];
      forall i | 1 <= i < |s| - |t| ensures IsJsWhitespace(s[i]) {
        assert s[i] == rest[i - 1];
      }
    }
  }

  /** Drops trailing whitespace. */
  function TrimEnd(s: string): (r: string) {
    if s != [] && IsJsWhitespace(s[|s| - 1]) then TrimEnd(s[..|s| - 1]) else s
  }

  /** `TrimEnd` keeps a prefix that does not end with whitespace, and drops only whitespace. */
  lemma {:induction false} TrimEndSpec(s: string)
    ensures |TrimEnd(s)| <= |s| && TrimEnd(s) == s[..|TrimEnd(s)|]
    ensures TrimEnd(s) != [] ==> !IsJsWhitespace(TrimEnd(s)[|TrimEnd(s)| - 1])
    ensures forall i :: |TrimEnd(s)| <= i < |s| ==> IsJsWhitespace(s[i])
  {
    if s != [] && IsJsWhitespace(s[|s| - 1]) {
      var init := s[..|s| - 1];
      TrimEndSpec(init);
      var t := TrimEnd(init);
      assert TrimEnd(s) == t;
      assert init[..|t|] == s[..|t|];
      forall i | |t| <= i < |s| - 1 ensures IsJsWhitespace(s[i]) {
        assert s[i] == init[i];
      }
    }
  }

  /** `s.trim()`. */
  function Trim(s: string): (r: string) {
    TrimEnd(TrimStart(s))
  }

  /** `s.trim()` is empty, i.e. falsy in JavaScript, exactly when `s` holds nothing but whitespace;
      a non-empty result comes from a non-empty string. */
  lemma TrimEmptyIff(s: string)
    ensures Trim(s) == [] <==> Blank(s)
    ensures Trim(s) != [] ==> s != []
  {
    var t := TrimStart(s);
    TrimStartSpec(s);
    TrimEndSpec(t);
    if Trim(s) != [] {
      var k := |s| - |t|;
      assert t[0] == s[k];
    }
  }

  /** The trimmed string is a contiguous piece of the original that neither starts nor ends with whitespace. */
  lemma TrimIsTrimmed(s: string)
    ensures exists i, j :: 0 <= i <= j <= |s| && Trim(s) == s[i..j]
    ensures Trim(s) != [] ==> !IsJsWhitespace(Trim(s)[0]) && !IsJsWhitespace(Trim(s)[|Trim(s)| - 1])
  {
    var t := TrimStart(s);
    TrimStartSpec(s);
    TrimEndSpec(t);
    var k := |s| - |t|;
    var r := TrimEnd(t);
    assert r == s[k..k + |r|];
    if r != [] {
      assert r[0] == t[0];
    }
  }

  /** ASCII `toLowerCase` of one character: the result is never an upper-case ASCII letter, and a
      character is changed only when it is one, into the lower-case letter at the same position. */
  function LowerChar(c: char): (r: char)
    ensures !('A' <= r <= 'Z')
    ensures r == c || ('A' <= c <= 'Z' && 'a' <= r <= 'z' && r as int - 'a' as int == c as int - 'A' as int)
  {
    if 'A' <= c <= 'Z' then (c as int + 32) as char else c
  }

  /** `s.toLowerCase()`, on the ASCII letters. */
  function Lower(s: string): (r: string)
    ensures |r| == |s|
    ensures forall i :: 0 <= i < |s| ==> r[i] == LowerChar(s[i])
  {
    if s == [] then [] else [LowerChar(s[0])] + Lower(s[1..])
  }

  /** Lower-casing twice is lower-casing once. */
  lemma LowerIdempotent(s: string)
    ensures Lower(Lower(s)) == Lower(s)
  {
  }

  /** `t` occurs in `s` starting at index `i`. */
  ghost predicate OccursAt(s: string, t: string, i: int) {
    0 <= i && i + |t| <= |s| && s[i..i + |t|] == t
  }

  /** `s.includes(t)`: `t` is a prefix of `s` or of one of its suffixes. */
  function Contains(s: string, t: string): (r: bool)
    decreases |s|
  {
    if t <= s then true
    else if s == [] then false
    else Contains(s[1..], t)
  }

  /** `Contains` means that `t` occurs in `s` at some position. */
  lemma {:induction false} ContainsIff(s: string, t: string)
    ensures Contains(s, t) <==> exists i :: OccursAt(s, t, i)
    decreases |s|
  {
    if t <= s {
      assert OccursAt(s, t, 0);
    } else if s == [] {
    } else {
      ContainsIff(s[1..], t);
      if Contains(s[1..], t) {
        var i :| OccursAt(s[1..], t, i);
        assert s[i + 1..i + 1 + |t|] == s[1..][i..i + |t|];
        assert OccursAt(s, t, i + 1);
      } else {
        forall i | OccursAt(s, t, i) && i > 0 ensures OccursAt(s[1..], t, i - 1) {
          assert s[1..][i - 1..i - 1 + |t|] == s[i..i + |t|];
        }
      }
    }
  }

  /** Every string includes the empty string. */
  lemma {:induction false} ContainsEmpty(s: string)
    ensures Contains(s, [])
  {
  }
}
