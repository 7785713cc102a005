/**
 * The few operations on Python `str` that the fraud rules and the mock-data
 * generator use, on Dafny strings (sequences of Unicode scalar values).
 */
module Strings {

  /** `s.startswith(prefix)` */
  predicate StartsWith(s: string, prefix: string) {
    |prefix| <= |s| && s[..|prefix|] == prefix
  }

  /** `s.endswith(suffix)` */
  predicate EndsWith(s: string, suffix: string) {
    |suffix| <= |s| && s[|s| - |suffix|..] == suffix
  }

  /** `s.count(c)` for a one-character `c`: the number of positions holding `c`. */
  function CountChar(s: string, c: char): (n: nat)
    ensures n <= |s|
    ensures n == |s| <==> forall k :: 0 <= k < |s| ==> s[k] == c
  {
    if s == [] then 0
    else (if s[0] == c then 1 else 0) + CountChar(s[1..], c)
  }

  /** The first index of `c` in `s`, or -1: locates the '@' where `email.split("@")` cuts. */
  function Find(s: string, c: char): (i: int)
    ensures -1 <= i < |s|
    ensures i == -1 <==> c !in s
    ensures 0 <= i ==> s[i] == c && c !in s[..i]
  {
    if s == [] then -1
    else if s[0] == c then 0
    else
      var j := Find(s[1..], c);
      if j < 0 then -1 else j + 1
  }

  /** `s.split(sep)` for a one-character separator: the pieces between separators, at least one. */
  function Split(s: string, sep: char): (parts: seq<string>)
    ensures |parts| >= 1
  {
    if s == [] then [""]
    else
      var rest := Split(s[1..], sep);
      if s[0] == sep then [""] + rest
      else [[s[0]] + rest[0]] + rest[1..]
  }

  /** Splitting cuts at the first separator and splits what follows it. */
  lemma {:induction false} SplitAtFirst(s: string, sep: char)
    ensures Find(s, sep) < 0 ==> Split(s, sep) == [s]
    ensures 0 <= Find(s, sep) ==>
              Split(s, sep) == [s[..Find(s, sep)]] + Split(s[Find(s, sep) + 1..], sep)
  {
    if s != [] && s[0] != sep {
      SplitAtFirst(s[1..], sep);
      var j := Find(s[1..], sep);
      if 0 <= j {
        assert [s[0]] + s[1..][..j] == s[..j + 1];
        assert s[1..][j + 1..] == s[j + 2..];
      } else {
        assert [s[0]] + s[1..] == s;
      }
    }
  }

  /** `sep.join(parts)` */
  function Join(parts: seq<string>, sep: string): (r: string)
    ensures parts != [] ==> StartsWith(r, parts[0]) && EndsWith(r, parts[|parts| - 1])
    ensures parts == [] ==> r == ""
  {
    if parts == [] then ""
    else if |parts| == 1 then parts[0]
    else
      var tail := Join(parts[1..], sep);
      assert (parts[0] + sep + tail)[..|parts[0]|] == parts[0];
      assert (parts[0] + sep + tail)[|parts[0] + sep + tail| - |tail|..] == tail;
      parts[0] + sep + tail
  }

  /** Python lower-cases the ASCII capitals and, among the characters outside ASCII, only
      U+212A KELVIN SIGN becomes an ASCII letter ('k'); every other character is kept. */
  function LowerChar(c: char): char {
    if 'A' <= c <= 'Z' then (c as int + 32) as char
    else if c == '\U{212A}' then 'k'
    else c
  }

  function UpperChar(c: char): char {
    if 'a' <= c <= 'z' then (c as int - 32) as char else c
  }

  predicate IsCased(c: char) {
    'a' <= c <= 'z' || 'A' <= c <= 'Z'
  }

  /** `s.lower()` */
  function Lower(s: string): (r: string)
    ensures |r| == |s|
    ensures forall k :: 0 <= k < |r| ==> !('A' <= r[k] <= 'Z') && r[k] != '\U{212A}'
  {
    seq(|s|, k requires 0 <= k < |s| => LowerChar(s[k]))
  }

  /** Text with no capital letter is its own lower-case form. */
  lemma LowerOfLowercase(s: string)
    requires forall k :: 0 <= k < |s| ==> !('A' <= s[k] <= 'Z') && s[k] != '\U{212A}'
    ensures Lower(s) == s
  {
  }

  /** `s.replace(a, b)` for one-character `a` and `b`. */
  function Replace(s: string, from: char, to: char): (r: string)
    ensures |r| == |s|
  {
    seq(|s|, k requires 0 <= k < |s| => if s[k] == from then to else s[k])
  }

  /** `s.title()`: a cased character following a cased one is lower-cased, any other is upper-cased. */
  function Title(s: string): (r: string)
    ensures |r| == |s|
  {
    TitleAfter(s, false)
  }

  function TitleAfter(s: string, previousIsCased: bool): (r: string)
    ensures |r| == |s|
  {
    if s == [] then []
    else
      [if previousIsCased then LowerChar(s[0]) else UpperChar(s[0])]
      + TitleAfter(s[1..], IsCased(s[0]))
  }

  predicate IsLowerWord(w: string) {
    forall k :: 0 <= k < |w| ==> 'a' <= w[k] <= 'z'
  }

  lemma {:induction false} TitleAfterConcat(a: string, b: string, previousIsCased: bool)
    ensures TitleAfter(a + b, previousIsCased)
            == TitleAfter(a, previousIsCased) + TitleAfter(b, if a == [] then previousIsCased else IsCased(a[|a| - 1]))
  {
    if a == [] {
      assert a + b == b;
    } else {
      assert (a + b)[1..] == a[1..] + b;
      TitleAfterConcat(a[1..], b, IsCased(a[0]));
    }
  }

  lemma {:induction false} TitleKeepsLowerWord(w: string)
    requires IsLowerWord(w)
    ensures TitleAfter(w, true) == w
  {
    if w != [] {
      TitleKeepsLowerWord(w[1..]);
    }
  }

  /** A lower-case word at the start of the text or after a space gets a capital. */
  lemma TitleOfWord(w: string)
    requires w != [] && IsLowerWord(w)
    ensures TitleAfter(w, false) == [UpperChar(w[0])] + w[1..]
    ensures TitleAfter(" " + w, true) == " " + [UpperChar(w[0])] + w[1..]
  {
    assert IsLowerWord(w[1..]) by {
      forall k | 0 <= k < |w| - 1 ensures 'a' <= w[1..][k] <= 'z' {
        assert w[1..][k] == w[k + 1];
      }
    }
    TitleKeepsLowerWord(w[1..]);
    assert IsCased(w[0]);
    assert TitleAfter(w, false) == [UpperChar(w[0])] + TitleAfter(w[1..], true);
    assert (" " + w)[0] == ' ' && (" " + w)[1..] == w;
    assert TitleAfter(" " + w, true) == [LowerChar(' ')] + TitleAfter(w, false);
  }

  predicate IsDigit(c: char) {
    '0' <= c <= '9'
  }

  function DigitChar(d: nat): (c: char)
    requires d < 10
    ensures IsDigit(c)
  {
    ('0' as int + d) as char
  }

  /** `str(n)` for a non-negative integer: its decimal digits. */
  function NatToString(n: nat): (r: string)
    ensures |r| >= 1
    ensures forall k :: 0 <= k < |r| ==> IsDigit(r[k])
  {
    if n < 10 then [DigitChar(n)]
    else NatToString(n / 10) + [DigitChar(n % 10)]
  }
}
