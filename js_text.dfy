/**
 * The parts of JavaScript's string semantics that the screens rely on:
 * the whitespace set of `String.prototype.trim` and of the regular
 * expression class `\s`, `trim` itself, line terminators (the characters
 * the regular expression `.` does not match) and upper-casing.
 *
 * Upper-casing is modelled for ASCII letters only: JavaScript's
 * `toUpperCase` applies the full Unicode case mapping, which this model
 * does not carry.
 */
module JsText {

  /** ECMAScript WhiteSpace and LineTerminator code points. */
  predicate IsWhitespace(c: char) {
    var n := c as int;
    n == 0x09 || n == 0x0A || n == 0x0B || n == 0x0C || n == 0x0D || n == 0x20
    || n == 0xA0 || n == 0x1680 || (0x2000 <= n <= 0x200A) || n == 0x2028
    || n == 0x2029 || n == 0x202F || n == 0x205F || n == 0x3000 || n == 0xFEFF
  }

  /** ECMAScript LineTerminator code points. */
  predicate IsLineTerminator(c: char) {
    var n := c as int;
    n == 0x0A || n == 0x0D || n == 0x2028 || n == 0x2029
  }

  predicate AllWhitespace(s: string) {
    forall i | 0 <= i < |s| :: IsWhitespace(s[i])
  }

  predicate IsAsciiUpper(c: char) { 'A' <= c <= 'Z' }

  predicate IsAsciiLower(c: char) { 'a' <= c <= 'z' }

  predicate IsAsciiLetter(c: char) { IsAsciiUpper(c) || IsAsciiLower(c) }

  /** Upper case of one character, ASCII letters only. */
  function UpperChar(c: char): char {
    if IsAsciiLower(c) then (c as int - 32) as char else c
  }

  /** `s.toUpperCase()`, restricted to ASCII letters. */
  function ToUpper(s: string): (r: string)
    ensures |r| == |s|
    ensures forall i | 0 <= i < |s| :: r[i] == UpperChar(s[i])
    ensures forall i | 0 <= i < |r| :: !IsAsciiLower(r[i])
  {
    if s == [] then [] else [UpperChar(s[0])] + ToUpper(s[1..])
  }

  /** Leading whitespace removed: a suffix of `s` that starts with no whitespace. */
  function TrimStart(s: string): (r: string)
    ensures |r| <= |s| && r == s[|s| - |r|..]
    ensures r == [] || !IsWhitespace(r[0])
  {
    if |s| > 0 && IsWhitespace(s[0]) then TrimStart(s[1..]) else s
  }

  /** Trailing whitespace removed: a prefix of `s` that ends with no whitespace. */
  function TrimEnd(s: string): (r: string)
    ensures |r| <= |s| && r == s[..|r|]
    ensures r == [] || !IsWhitespace(r[|r| - 1])
  {
    if |s| > 0 && IsWhitespace(s[|s| - 1]) then TrimEnd(s[..|s| - 1]) else s
  }

  /** What `TrimStart` drops is whitespace. */
  lemma {:induction false} TrimStartDropsWhitespace(s: string)
    ensures forall k | 0 <= k < |s| - |TrimStart(s)| :: IsWhitespace(s[k])
  {
    if |s| > 0 && IsWhitespace(s[0]) {
      TrimStartDropsWhitespace(s[1..]);
      forall k | 1 <= k < |s| - |TrimStart(s)| ensures IsWhitespace(s[k]) {
        assert s[k] == s[1..][k - 1];
      }
    }
  }

  /** What `TrimEnd` drops is whitespace. */
  lemma {:induction false} TrimEndDropsWhitespace(s: string)
    ensures forall k | |TrimEnd(s)| <= k < |s| :: IsWhitespace(s[k])
  {
    if |s| > 0 && IsWhitespace(s[|s| - 1]) {
      TrimEndDropsWhitespace(s[..|s| - 1]);
      forall k | |TrimEnd(s)| <= k < |s| - 1 ensures IsWhitespace(s[k]) {
        assert s[k] == s[..|s| - 1][k];
      }
    }
  }

  /**
   * `s.trim()`: whitespace removed from both ends; what is left neither
   * starts nor ends with whitespace (`TrimSplit` says where it sits in `s`).
   */
  function Trim(s: string): (r: string)
    ensures r == [] || (!IsWhitespace(r[0]) && !IsWhitespace(r[|r| - 1]))
  {
    TrimEnd(TrimStart(s))
  }

  /** Whitespace at the end of a suffix `t` of `s` is whitespace at the end of `s`. */
  lemma SuffixWhitespace(s: string, t: string, m: nat)
    requires |t| <= |s| && t == s[|s| - |t|..]
    requires forall k | m <= k < |t| :: IsWhitespace(t[k])
    ensures forall k | |s| - |t| + m <= k < |s| :: IsWhitespace(s[k])
  {
    forall k | |s| - |t| + m <= k < |s| ensures IsWhitespace(s[k]) {
      assert s[k] == t[k - (|s| - |t|)];
    }
  }

  /**
   * Where `trim` cuts `s`: the text it keeps is the slice of `s` at offset
   * `i`, and everything before and after that slice is whitespace.
   */
  lemma TrimSplit(s: string) returns (i: nat)
    ensures i + |Trim(s)| <= |s| && Trim(s) == s[i..i + |Trim(s)|]
    ensures forall k | 0 <= k < i :: IsWhitespace(s[k])
    ensures forall k | i + |Trim(s)| <= k < |s| :: IsWhitespace(s[k])
  {
    var t := TrimStart(s);
    i := |s| - |t|;
    PrefixOfSuffix(s, t, Trim(s));
    TrimStartDropsWhitespace(s);
    TrimEndDropsWhitespace(t);
    SuffixWhitespace(s, t, |Trim(s)|);
  }

  /** A prefix `r` of a suffix `t` of `s` is a slice of `s`. */
  lemma PrefixOfSuffix(s: string, t: string, r: string)
    requires |t| <= |s| && t == s[|s| - |t|..]
    requires |r| <= |t| && r == t[..|r|]
    ensures r == s[|s| - |t|..|s| - |t| + |r|]
  {
  }

  /** Leading whitespace of a concatenation. */
  lemma {:induction false} TrimStartAppend(s: string, t: string)
    ensures TrimStart(s + t) == if TrimStart(s) == [] then TrimStart(t) else TrimStart(s) + t
  {
    if |s| > 0 && IsWhitespace(s[0]) {
      assert (s + t)[1..] == s[1..] + t;
      TrimStartAppend(s[1..], t);
    } else if s == [] {
      assert s + t == t;
    }
  }

  /** Trailing whitespace of a concatenation. */
  lemma {:induction false} TrimEndPrepend(s: string, t: string)
    ensures TrimEnd(s + t) == if TrimEnd(t) == [] then TrimEnd(s) else s + TrimEnd(t)
  {
    if |t| > 0 && IsWhitespace(t[|t| - 1]) {
      assert (s + t)[..|s + t| - 1] == s + t[..|t| - 1];
      TrimEndPrepend(s, t[..|t| - 1]);
    } else if t == [] {
      assert s + t == s;
    }
  }

  /** Whitespace added on either side never changes what `trim` returns. */
  lemma TrimIgnoresPadding(pre: string, s: string, post: string)
    requires AllWhitespace(pre) && AllWhitespace(post)
    ensures Trim(pre + s + post) == Trim(s)
  {
    calc {
      Trim(pre + s + post);
    == { assert pre + s + post == pre + (s + post); }
      TrimEnd(TrimStart(pre + (s + post)));
    == { TrimStartIgnoresPadding(pre, s + post); }
      Trim(s + post);
    == { TrimIgnoresTrailing(s, post); }
      Trim(s);
    }
  }

  /** Leading whitespace is dropped by `TrimStart`, however much there is. */
  lemma TrimStartIgnoresPadding(pre: string, s: string)
    requires AllWhitespace(pre)
    ensures TrimStart(pre + s) == TrimStart(s)
  {
    TrimOfWhitespace(pre);
    TrimStartAppend(pre, s);
  }

  /** Trailing whitespace never changes what `trim` returns. */
  lemma TrimIgnoresTrailing(s: string, post: string)
    requires AllWhitespace(post)
    ensures Trim(s + post) == Trim(s)
  {
    TrimOfWhitespace(post);
    TrimStartAppend(s, post);
    var u := TrimStart(s);
    if u != [] {
      TrimEndPrepend(u, post);
    } else {
      assert TrimStart(s + post) == TrimStart(post) == [];
    }
  }

  /** A text of whitespace only trims to nothing from either side. */
  lemma {:induction false} TrimOfWhitespace(w: string)
    requires AllWhitespace(w)
    ensures TrimStart(w) == [] && TrimEnd(w) == []
  {
    if w != [] {
      assert AllWhitespace(w[1..]) && AllWhitespace(w[..|w| - 1]);
      TrimOfWhitespace(w[1..]);
      TrimOfWhitespace(w[..|w| - 1]);
    }
  }

  /** Trimming twice is trimming once. */
  lemma TrimIdempotent(s: string)
    ensures Trim(Trim(s)) == Trim(s)
  {
    var r := Trim(s);
    if r != [] {
      assert TrimStart(r) == r;
      assert TrimEnd(r) == r;
    }
  }

  /** Number of occurrences of `c` in `s`. */
  function Count(s: string, c: char): nat {
    if s == [] then 0 else (if s[0] == c then 1 else 0) + Count(s[1..], c)
  }

  lemma {:induction false} CountAppend(s: string, t: string, c: char)
    ensures Count(s + t, c) == Count(s, c) + Count(t, c)
  {
    if s == [] {
      assert s + t == t;
    } else {
      assert (s + t)[1..] == s[1..] + t;
      CountAppend(s[1..], t, c);
    }
  }

  lemma {:induction false} CountAbsent(s: string, c: char)
    requires c !in s
    ensures Count(s, c) == 0
  {
    if s != [] {
      CountAbsent(s[1..], c);
    }
  }
}
