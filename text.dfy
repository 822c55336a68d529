/**
 * The string operations of Python that the scoring engine relies on, over Dafny strings
 * (sequences of Unicode scalar values, so `|s|` is Python's `len(s)`).
 * Case mapping is modelled on ASCII letters only.
 */
module Text {

  /** `s.count(c)` for a one-character `c`. */
  function Count(s: string, c: char): (n: nat)
    ensures n <= |s|
    ensures n == 0 <==> c !in s
  {
    if s == [] then 0
    else
      assert s == [s[0]] + s[1..];
      (if s[0] == c then 1 else 0) + Count(s[1..], c)
  }

  lemma {:induction false} CountConcat(a: string, b: string, c: char)
    ensures Count(a + b, c) == Count(a, c) + Count(b, c)
  {
    if a != [] {
      assert (a + b)[1..] == a[1..] + b;
      CountConcat(a[1..], b, c);
    } else {
      assert a + b == b;
    }
  }

  /** `s.startswith(p)` */
  predicate StartsWith(s: string, p: string) {
    |p| <= |s| && s[..|p|] == p
  }

  /** `s.endswith(p)` */
  predicate EndsWith(s: string, p: string) {
    |p| <= |s| && s[|s| - |p|..] == p
  }

  /** `p in s`: `p` occurs in `s` as a contiguous substring (the empty string occurs everywhere). */
  predicate Contains(s: string, p: string)
    decreases |s|
  {
    StartsWith(s, p) || (s != [] && Contains(s[1..], p))
  }

  /** An occurrence at a known position is a substring occurrence. */
  lemma {:induction false} ContainsAt(s: string, p: string, i: nat)
    requires i + |p| <= |s| && s[i..i + |p|] == p
    ensures Contains(s, p)
    decreases i
  {
    if i > 0 {
      assert s[1..][i - 1..i - 1 + |p|] == s[i..i + |p|];
      ContainsAt(s[1..], p, i - 1);
    }
  }

  /** A piece of a string occurs in it. */
  lemma OccursIn(a: string, w: string, b: string)
    ensures Contains(a + w + b, w)
  {
    var s := a + w + b;
    assert s[|a|..|a| + |w|] == w;
    ContainsAt(s, w, |a|);
  }

  /** Every substring occurrence has a position. */
  lemma {:induction false} ContainsPosition(s: string, p: string) returns (i: nat)
    requires Contains(s, p)
    ensures i + |p| <= |s| && s[i..i + |p|] == p
    decreases |s|
  {
    if StartsWith(s, p) {
      i := 0;
    } else {
      var j := ContainsPosition(s[1..], p);
      assert s[1..][j..j + |p|] == s[j + 1..j + 1 + |p|];
      i := j + 1;
    }
  }

  predicate IsUpperAscii(c: char) { 'A' <= c <= 'Z' }

  predicate IsLowerAscii(c: char) { 'a' <= c <= 'z' }

  /** `str.lower()` on one character, ASCII letters only. */
  function LowerChar(c: char): char {
    if IsUpperAscii(c) then (c as int + 32) as char else c
  }

  /** `str.upper()` on one character, ASCII letters only. */
  function UpperChar(c: char): char {
    if IsLowerAscii(c) then (c as int - 32) as char else c
  }

  function ToLower(s: string): string {
    seq(|s|, i requires 0 <= i < |s| => LowerChar(s[i]))
  }

  function ToUpper(s: string): string {
    seq(|s|, i requires 0 <= i < |s| => UpperChar(s[i]))
  }

  /** No ASCII capital letter occurs in `s`. */
  predicate IsLowerCase(s: string) {
    forall i :: 0 <= i < |s| ==> !IsUpperAscii(s[i])
  }

  /** Every piece of a lower-case string is lower case. */
  lemma SliceOfLowerCase(s: string, i: nat, j: nat)
    requires IsLowerCase(s)
    requires i <= j <= |s|
    ensures IsLowerCase(s[i..j])
  {
    forall k | 0 <= k < j - i ensures !IsUpperAscii(s[i..j][k]) {
      assert s[i..j][k] == s[i + k];
    }
  }

  lemma ToLowerIsLowerCase(s: string)
    ensures IsLowerCase(ToLower(s))
  {
  }

  /** Lower-casing a string that is already lower case changes nothing. */
  lemma ToLowerOfLowerCase(s: string)
    requires IsLowerCase(s)
    ensures ToLower(s) == s
  {
  }

  /** The lower-cased form of a piece of a string occurs in the lower-cased string. */
  lemma OccursInLowered(a: string, w: string, b: string)
    ensures Contains(ToLower(a + w + b), ToLower(w))
  {
    var s := ToLower(a + w + b);
    assert ToLower(a + w + b) == ToLower(a) + ToLower(w) + ToLower(b);
    OccursIn(ToLower(a), ToLower(w), ToLower(b));
  }

  /** Lower-casing forgets any upper-casing done before it. */
  lemma LowerOfUpper(s: string)
    ensures ToLower(ToUpper(s)) == ToLower(s)
  {
    forall i | 0 <= i < |s| ensures ToLower(ToUpper(s))[i] == ToLower(s)[i] {
      assert LowerChar(UpperChar(s[i])) == LowerChar(s[i]);
    }
  }

  /** No ASCII letter occurs in `p`, so case mapping leaves it alone. */
  predicate HasNoLetter(p: string) {
    forall k :: 0 <= k < |p| ==> !IsUpperAscii(p[k]) && !IsLowerAscii(p[k])
  }

  /** A pattern without letters starts a case-mapped string exactly when it starts the string. */
  lemma StartsWithNonLetterIgnoresCase(s: string, p: string)
    requires HasNoLetter(p)
    ensures StartsWith(ToLower(s), p) == StartsWith(s, p)
    ensures StartsWith(ToUpper(s), p) == StartsWith(s, p)
  {
    if |p| <= |s| {
      if StartsWith(ToLower(s), p) {
        forall k | 0 <= k < |p| ensures s[k] == p[k] {
          assert ToLower(s)[..|p|][k] == p[k];
        }
        assert s[..|p|] == p;
      }
      if StartsWith(ToUpper(s), p) {
        forall k | 0 <= k < |p| ensures s[k] == p[k] {
          assert ToUpper(s)[..|p|][k] == p[k];
        }
        assert s[..|p|] == p;
      }
      if StartsWith(s, p) {
        assert ToLower(s)[..|p|] == p by {
          forall k | 0 <= k < |p| ensures ToLower(s)[k] == p[k] {
            assert s[..|p|][k] == p[k];
          }
        }
        assert ToUpper(s)[..|p|] == p by {
          forall k | 0 <= k < |p| ensures ToUpper(s)[k] == p[k] {
            assert s[..|p|][k] == p[k];
          }
        }
      }
    }
  }

  /** A pattern without letters occurs in a case-mapped string exactly when it occurs in the string. */
  lemma {:induction false} ContainsNonLetterIgnoresCase(s: string, p: string)
    requires HasNoLetter(p)
    ensures Contains(ToLower(s), p) == Contains(s, p)
    ensures Contains(ToUpper(s), p) == Contains(s, p)
    decreases |s|
  {
    StartsWithNonLetterIgnoresCase(s, p);
    if s != [] {
      assert ToLower(s)[1..] == ToLower(s[1..]);
      assert ToUpper(s)[1..] == ToUpper(s[1..]);
      ContainsNonLetterIgnoresCase(s[1..], p);
    }
  }

  /** A character that is not a letter occurs in a case-mapped string exactly when it occurs in the string. */
  lemma NonLetterInIgnoresCase(s: string, c: char)
    requires !IsUpperAscii(c) && !IsLowerAscii(c)
    ensures c in ToLower(s) <==> c in s
    ensures c in ToUpper(s) <==> c in s
  {
    if c in ToLower(s) {
      var k :| 0 <= k < |s| && ToLower(s)[k] == c;
      assert s[k] == c;
    }
    if c in ToUpper(s) {
      var k :| 0 <= k < |s| && ToUpper(s)[k] == c;
      assert s[k] == c;
    }
    if c in s {
      var k :| 0 <= k < |s| && s[k] == c;
      assert ToLower(s)[k] == c && ToUpper(s)[k] == c;
    }
  }

  /**
   * The characters for which Python's `str.isspace()` holds, which are the characters
   * `str.strip()` with no argument removes.
   */
  predicate IsSpace(c: char) {
    var n := c as int;
    (9 <= n <= 13) || (28 <= n <= 32) || n == 0x85 || n == 0xA0 || n == 0x1680
    || (0x2000 <= n <= 0x200A) || n == 0x2028 || n == 0x2029 || n == 0x202F
    || n == 0x205F || n == 0x3000
  }

  /** Neither the first nor the last character of `s` is white space. */
  predicate Trimmed(s: string) {
    s == [] || (!IsSpace(s[0]) && !IsSpace(s[|s| - 1]))
  }

  /** Every character of `t` is white space. */
  predicate AllSpace(t: string) {
    forall k :: 0 <= k < |t| ==> IsSpace(t[k])
  }

  /** `s.lstrip()`: what follows the leading white space of `s`. */
  function StripLeading(s: string): (r: string)
    ensures |r| <= |s|
  {
    if s != [] && IsSpace(s[0]) then StripLeading(s[1..]) else s
  }

  /** `s.rstrip()`: what precedes the trailing white space of `s`. */
  function StripTrailing(s: string): (r: string)
    ensures |r| <= |s|
  {
    if s != [] && IsSpace(s[|s| - 1]) then StripTrailing(s[..|s| - 1]) else s
  }

  /** `lstrip` keeps a suffix that does not start with white space, and drops only white space. */
  lemma {:induction false} StripLeadingShape(s: string)
    ensures var r := StripLeading(s);
      && r == s[|s| - |r|..]
      && (r == [] || !IsSpace(r[0]))
      && AllSpace(s[..|s| - |r|])
  {
    if s != [] && IsSpace(s[0]) {
      StripLeadingShape(s[1..]);
      var n := |s| - |StripLeading(s)|;
      assert s[..n] == [s[0]] + s[1..][..n - 1];
    }
  }

  /** `rstrip` keeps a prefix that does not end with white space, and drops only white space. */
  lemma {:induction false} StripTrailingShape(s: string)
    ensures var r := StripTrailing(s);
      && r == s[..|r|]
      && (r == [] || !IsSpace(r[|r| - 1]))
      && AllSpace(s[|r|..])
  {
    if s != [] && IsSpace(s[|s| - 1]) {
      var t := s[..|s| - 1];
      StripTrailingShape(t);
      var n := |StripTrailing(s)|;
      assert s[n..] == t[n..] + [s[|s| - 1]];
    }
  }

  /** `s.strip()` */
  function Strip(s: string): string {
    StripTrailing(StripLeading(s))
  }

  /**
   * What `strip` keeps is one contiguous piece of `s`, with no white space at either end and
   * only white space before and after it.
   */
  lemma StripIsSlice(s: string) returns (i: nat, j: nat)
    ensures i <= j <= |s| && Strip(s) == s[i..j]
    ensures Trimmed(Strip(s))
    ensures AllSpace(s[..i]) && AllSpace(s[j..])
  {
    var l := StripLeading(s);
    var r := StripTrailing(l);
    StripLeadingShape(s);
    StripTrailingShape(l);
    i := |s| - |l|;
    j := i + |r|;
    assert r == s[i..j];
    if r != [] {
      assert r[0] == l[0];
    }
    assert s[j..] == l[|r|..];
  }

  /** Stripping a string that has no white space at its ends changes nothing. */
  lemma StripOfTrimmed(s: string)
    requires Trimmed(s)
    ensures Strip(s) == s
  {
  }

  /**
   * `s.split(c)` for a one-character separator `c`: the pieces between the separators,
   * including empty ones.
   */
  function Split(s: string, c: char): (parts: seq<string>)
    ensures |parts| == Count(s, c) + 1
    ensures forall k :: 0 <= k < |parts| ==> c !in parts[k]
  {
    if s == [] then [""]
    else
      var rest := Split(s[1..], c);
      if s[0] == c then [""] + rest else [[s[0]] + rest[0]] + rest[1..]
  }

  /** `c.join(parts)` */
  function Join(parts: seq<string>, c: char): string
    requires |parts| > 0
  {
    if |parts| == 1 then parts[0] else parts[0] + [c] + Join(parts[1..], c)
  }

  /** Splitting and joining again gives back the original string. */
  lemma {:induction false} JoinSplit(s: string, c: char)
    ensures Join(Split(s, c), c) == s
  {
    if s != [] {
      JoinSplit(s[1..], c);
      if s[0] == c {
        JoinSplitAtSeparator(s, c);
      } else {
        JoinSplitAtOther(s, c);
      }
    }
  }

  /** The step of `JoinSplit` for a string that starts with the separator. */
  lemma JoinSplitAtSeparator(s: string, c: char)
    requires s != [] && s[0] == c
    requires Join(Split(s[1..], c), c) == s[1..]
    ensures Join(Split(s, c), c) == s
  {
    var parts := Split(s, c);
    var rest := Split(s[1..], c);
    assert parts == [""] + rest;
    assert parts[1..] == rest;
    calc {
      Join(parts, c);
      "" + [c] + Join(rest, c);
      [c] + s[1..];
      s;
    }
  }

  /** The step of `JoinSplit` for a string that starts with another character. */
  lemma JoinSplitAtOther(s: string, c: char)
    requires s != [] && s[0] != c
    requires Join(Split(s[1..], c), c) == s[1..]
    ensures Join(Split(s, c), c) == s
  {
    var parts := Split(s, c);
    var rest := Split(s[1..], c);
    assert parts == [[s[0]] + rest[0]] + rest[1..];
    if |rest| == 1 {
      calc {
        Join(parts, c);
        [s[0]] + rest[0];
        [s[0]] + s[1..];
        s;
      }
    } else {
      assert parts[1..] == rest[1..];
      calc {
        Join(parts, c);
        ([s[0]] + rest[0]) + [c] + Join(rest[1..], c);
        [s[0]] + (rest[0] + [c] + Join(rest[1..], c));
        [s[0]] + Join(rest, c);
        [s[0]] + s[1..];
        s;
      }
    }
  }

  /** `s[:n]` for `n >= 0`: the first `n` characters, or all of `s` when it is shorter. */
  function Take(s: string, n: nat): (r: string)
    ensures |r| == if |s| <= n then |s| else n
    ensures r == s[..|r|]
  {
    if |s| <= n then s else s[..n]
  }
}
