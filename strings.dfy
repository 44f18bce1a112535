/**
 * The few JavaScript string operations the framework relies on, defined on
 * `seq<char>`: `startsWith`, `includes`, `split` on one character, ASCII
 * lower-casing (what a `/i` regular expression folds for ASCII patterns) and
 * the `\w` character class.
 */
module Strings {

  /** `s.startsWith(p)`. */
  predicate StartsWith(s: string, p: string) {
    p <= s
  }

  /** `s.includes(sub)`: `sub` occurs in `s` at some position. */
  predicate Includes(s: string, sub: string)
    decreases |s|
  {
    StartsWith(s, sub) || (|s| > 0 && Includes(s[1..], sub))
  }

  /** `Includes` holds exactly when some window of `s` equals `sub`. */
  lemma {:induction false} IncludesAt(s: string, sub: string, i: nat)
    requires i + |sub| <= |s| && s[i..i + |sub|] == sub
    ensures Includes(s, sub)
    decreases i
  {
    if i == 0 {
      assert sub <= s;
    } else {
      assert s[1..][i - 1..i - 1 + |sub|] == sub;
      IncludesAt(s[1..], sub, i - 1);
    }
  }

  /** The JavaScript `\w` class: ASCII letters, digits and underscore. */
  predicate IsWordChar(c: char) {
    ('a' <= c <= 'z') || ('A' <= c <= 'Z') || ('0' <= c <= '9') || c == '_'
  }

  predicate IsAsciiDigit(c: char) { '0' <= c <= '9' }
  predicate IsAsciiLower(c: char) { 'a' <= c <= 'z' }
  predicate IsAsciiUpper(c: char) { 'A' <= c <= 'Z' }
  predicate IsAsciiAlnum(c: char) { IsAsciiDigit(c) || IsAsciiLower(c) || IsAsciiUpper(c) }

  /** ASCII case folding of one character; other characters are kept. */
  function LowerChar(c: char): (r: char)
    ensures IsAsciiUpper(c) ==> r as int == c as int + 32
    ensures !IsAsciiUpper(c) ==> r == c
  {
    if IsAsciiUpper(c) then (c as int + 32) as char else c
  }

  function Lower(s: string): (r: string)
    ensures |r| == |s|
    ensures forall i :: 0 <= i < |s| ==> r[i] == LowerChar(s[i])
  {
    seq(|s|, i requires 0 <= i < |s| => LowerChar(s[i]))
  }

  /** Number of occurrences of `c` in `s`. */
  function Count(s: string, c: char): nat
  {
    if s == [] then 0 else (if s[0] == c then 1 else 0) + Count(s[1..], c)
  }

  /** `s.split(c)` for a one-character separator: the pieces between separators, in order. */
  function Split(s: string, c: char): (parts: seq<string>)
    ensures |parts| >= 1
  {
    if s == [] then [""]
    else
      var rest := Split(s[1..], c);
      if s[0] == c then [""] + rest else [[s[0]] + rest[0]] + rest[1..]
  }

  /** `split` gives one more piece than there are separators. */
  lemma {:induction false} SplitLength(s: string, c: char)
    ensures |Split(s, c)| == Count(s, c) + 1
  {
    if s != [] {
      SplitLength(s[1..], c);
    }
  }

  /** Without a separator, `split` gives the whole string as its only piece. */
  lemma {:induction false} SplitNone(s: string, c: char)
    requires Count(s, c) == 0
    ensures Split(s, c) == [s]
  {
    if s != [] {
      SplitNone(s[1..], c);
      assert [s[0]] + s[1..] == s;
    }
  }

  /** With exactly one separator at index `k`, `split` gives the text before and after it. */
  lemma {:induction false} SplitOne(s: string, c: char, k: nat)
    requires k < |s| && s[k] == c && Count(s, c) == 1
    ensures Split(s, c) == [s[..k], s[k + 1..]]
  {
    if k == 0 {
      assert Count(s[1..], c) == 0;
      SplitNone(s[1..], c);
    } else {
      assert s[0] != c by { CountPositive(s, c, k); }
      assert s[1..][k - 1] == c;
      SplitOne(s[1..], c, k - 1);
      assert [s[0]] + s[1..][..k - 1] == s[..k];
      assert s[1..][k..] == s[k + 1..];
    }
  }

  /** Every occurrence is counted: an occurrence of `c` at index `k` leaves at least one other
      occurrence counted when `s[0]` is also `c` and `k > 0`. */
  lemma {:induction false} CountPositive(s: string, c: char, k: nat)
    requires 0 < k < |s| && s[k] == c
    ensures s[0] == c ==> Count(s, c) >= 2
    ensures Count(s[1..], c) >= 1
  {
    CountAt(s[1..], c, k - 1);
  }

  lemma {:induction false} CountAt(s: string, c: char, k: nat)
    requires k < |s| && s[k] == c
    ensures Count(s, c) >= 1
  {
    if k > 0 {
      CountAt(s[1..], c, k - 1);
    }
  }

  /** `parts.join(sep)`. */
  function Join(parts: seq<string>, sep: string): string
  {
    if |parts| == 0 then ""
    else if |parts| == 1 then parts[0]
    else parts[0] + sep + Join(parts[1..], sep)
  }

  /** The position of the first `:` of `s`, or `|s|` without one. */
  function FirstColon(s: string): (n: nat)
    ensures n <= |s|
  {
    if s == [] || s[0] == ':' then 0 else 1 + FirstColon(s[1..])
  }

  /** In `a + ":" + b` with no `:` in `a`, the first `:` ends `a`. */
  lemma {:induction false} FirstColonOfJoin(a: string, b: string)
    requires forall i :: 0 <= i < |a| ==> a[i] != ':'
    ensures FirstColon(a + ":" + b) == |a|
  {
    if a != [] {
      assert (a + ":" + b)[0] == a[0];
      assert (a + ":" + b)[1..] == a[1..] + ":" + b;
      FirstColonOfJoin(a[1..], b);
    }
  }

  /** `a + ":" + b` determines `a` and `b` when `a` has no `:`. */
  lemma ColonJoinInjective(a1: string, b1: string, a2: string, b2: string)
    requires forall i :: 0 <= i < |a1| ==> a1[i] != ':'
    requires forall i :: 0 <= i < |a2| ==> a2[i] != ':'
    requires a1 + ":" + b1 == a2 + ":" + b2
    ensures a1 == a2 && b1 == b2
  {
    var k := a1 + ":" + b1;
    FirstColonOfJoin(a1, b1);
    FirstColonOfJoin(a2, b2);
    assert a1 == k[..|a1|] == a2;
    assert b1 == k[|a1| + 1..] == b2;
  }
}
