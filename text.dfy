/**
 * The Python string operations the scripts use: `upper()`, `strip()`, `split(sep)`, the
 * `in` substring test and `str()` of an integer.
 */
module Text {

  /** ASCII upper-casing of one character (`str.upper` on a byte string). */
  function UpperChar(c: char): char {
    if 'a' <= c <= 'z' then (c as int - 32) as char else c
  }

  function Upper(s: string): (r: string)
    ensures |r| == |s|
    ensures forall i :: 0 <= i < |s| ==> r[i] == UpperChar(s[i])
  {
    seq(|s|, i requires 0 <= i < |s| => UpperChar(s[i]))
  }

  /** The whitespace `str.strip()` removes from a byte string. */
  predicate IsSpace(c: char) {
    c == ' ' || c == '\t' || c == '\n' || c == '\r' || c as int == 11 || c as int == 12
  }

  function StripLeft(s: string): (r: string)
    ensures |r| <= |s| && r == s[|s| - |r|..]
    ensures r == [] || !IsSpace(r[0])
    ensures forall i :: 0 <= i < |s| - |r| ==> IsSpace(s[i])
  {
    if s != [] && IsSpace(s[0]) then StripLeft(s[1..]) else s
  }

  function StripRight(s: string): (r: string)
    ensures |r| <= |s| && r == s[..|r|]
    ensures r == [] || !IsSpace(r[|r| - 1])
    ensures forall i :: |r| <= i < |s| ==> IsSpace(s[i])
  {
    if s != [] && IsSpace(s[|s| - 1]) then StripRight(s[..|s| - 1]) else s
  }

  /** `s.strip()`. */
  function Strip(s: string): (r: string)
    ensures r == [] || (!IsSpace(r[0]) && !IsSpace(r[|r| - 1]))
  {
    StripRight(StripLeft(s))
  }

  /** `s.split(c)` for a one-character separator: the pieces between separators. */
  function SplitOn(s: string, c: char): (r: seq<string>)
    ensures |r| >= 1
    decreases |s|
  {
    if s == [] then [""]
    else
      var rest := SplitOn(s[1..], c);
      if s[0] == c then [""] + rest else [[s[0]] + rest[0]] + rest[1..]
  }

  /** `c.join(parts)`. */
  function Join(parts: seq<string>, c: char): string
    requires |parts| >= 1
    decreases |parts|
  {
    if |parts| == 1 then parts[0] else parts[0] + [c] + Join(parts[1..], c)
  }

  /** Splitting and joining with the same separator gives back the string. */
  lemma {:induction false} JoinSplit(s: string, c: char)
    ensures Join(SplitOn(s, c), c) == s
  {
    if s != [] {
      var rest := SplitOn(s[1..], c);
      JoinSplit(s[1..], c);
      if s[0] == c {
        assert SplitOn(s, c)[1..] == rest;
      } else {
        var r := SplitOn(s, c);
        if |rest| == 1 {
          assert r == [[s[0]] + rest[0]];
        } else {
          assert r[1..] == rest[1..];
          assert Join(rest, c) == rest[0] + [c] + Join(rest[1..], c);
        }
      }
    }
  }

  /** No piece holds the separator. */
  lemma {:induction false} SplitPiecesFree(s: string, c: char)
    ensures forall k :: 0 <= k < |SplitOn(s, c)| ==> c !in SplitOn(s, c)[k]
  {
    if s != [] {
      SplitPiecesFree(s[1..], c);
      var rest := SplitOn(s[1..], c);
      if s[0] != c {
        assert forall k :: 1 <= k < |SplitOn(s, c)| ==> SplitOn(s, c)[k] == rest[k];
      } else {
        assert forall k :: 1 <= k < |SplitOn(s, c)| ==> SplitOn(s, c)[k] == rest[k - 1];
      }
    }
  }

  /** A string that does not start with the separator has a non-empty first piece. */
  lemma FirstPieceNonEmpty(s: string, c: char)
    requires s != [] && s[0] != c
    ensures SplitOn(s, c)[0] != [] && SplitOn(s, c)[0][0] == s[0]
  {
  }

  /** Python's `t in s` for strings: `t` occurs in `s` at some position. */
  predicate IsSubstring(t: string, s: string)
    decreases |s|
  {
    (|t| <= |s| && s[..|t|] == t) || (s != [] && IsSubstring(t, s[1..]))
  }

  function DigitChar(d: nat): char
    requires d < 10
  {
    "0123456789"[d]
  }

  function Digits(n: nat): string
    decreases n
  {
    if n < 10 then [DigitChar(n)] else Digits(n / 10) + [DigitChar(n % 10)]
  }

  /** `str(i)` of an integer. */
  function Decimal(i: int): string {
    if i < 0 then "-" + Digits(-i) else Digits(i)
  }
}
