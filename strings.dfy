/**
 * The Python `str` operations the extractor relies on, with the semantics of
 * CPython: `find`, `in`, `startswith`, clipped slicing, `split` with an explicit
 * separator, `join`, argument-less `strip`, ASCII `lower` and `str(int)`.
 */
module Strings {

  /** `sub` occurs in `s` starting at index `i`. */
  predicate IsAt(s: string, sub: string, i: int) {
    0 <= i && i + |sub| <= |s| && s[i..i + |sub|] == sub
  }

  /** `s.find(sub, start)`: the lowest index at or after `start` where `sub` occurs, or -1. */
  function Find(s: string, sub: string, start: nat): (r: int)
    ensures r == -1 || (start <= r && IsAt(s, sub, r))
    ensures r == -1 ==> forall i :: start <= i ==> !IsAt(s, sub, i)
    ensures r != -1 ==> forall i :: start <= i < r ==> !IsAt(s, sub, i)
    decreases |s| - start
  {
    if start + |sub| > |s| then -1
    else if s[start..start + |sub|] == sub then start
    else Find(s, sub, start + 1)
  }

  /** `sub in s`. */
  predicate Contains(s: string, sub: string) {
    Find(s, sub, 0) != -1
  }

  lemma ContainsAt(s: string, sub: string, i: int)
    requires IsAt(s, sub, i)
    ensures Contains(s, sub)
  {
  }

  /** `s.startswith(p)`. */
  predicate StartsWith(s: string, p: string) {
    |p| <= |s| && s[..|p|] == p
  }

  /** `s[:n]` for a non-negative `n`. */
  function Take(s: string, n: nat): (r: string)
    ensures |r| == if n <= |s| then n else |s|
    ensures r == s[..|r|]
  {
    if n <= |s| then s[..n] else s
  }

  /** `s[a:b]` for non-negative bounds, clipped to the string as Python does. */
  function Slice(s: string, a: nat, b: nat): (r: string)
  {
    var hi := if b <= |s| then b else |s|;
    if a <= hi then s[a..hi] else ""
  }

  /** `sub` occurs nowhere in `s` ending within the first `k` characters. */
  predicate AbsentBefore(s: string, sub: string, k: int) {
    forall i :: 0 <= i && i + |sub| <= k ==> !IsAt(s, sub, i)
  }

  /** `sub in s[:k]` exactly when some occurrence of `sub` ends within the first `k`
      characters. */
  lemma ContainsInTake(s: string, sub: string, k: nat)
    ensures Contains(Take(s, k), sub) <==> !AbsentBefore(s, sub, k)
  {
    var t := Take(s, k);
    if Contains(t, sub) {
      var i := Find(t, sub, 0);
      IsAtPrefix(s, |t|, sub, i);
      assert i + |sub| <= k && IsAt(s, sub, i);
    }
    if !AbsentBefore(s, sub, k) {
      var i :| 0 <= i && i + |sub| <= k && IsAt(s, sub, i);
      IsAtInPrefix(s, |t|, sub, i);
      ContainsAt(t, sub, i);
    }
  }

  /** A concatenation starts with its first part and ends with its last. */
  lemma ConcatEnds(a: string, b: string, c: string)
    ensures StartsWith(a + b + c, a)
    ensures |c| <= |a + b + c| && (a + b + c)[|a + b + c| - |c|..] == c
  {
    assert (a + b + c)[..|a|] == a;
    assert (a + b + c)[|a + b|..] == c;
  }

  /** An occurrence inside a prefix is an occurrence in the whole string. */
  lemma IsAtPrefix(s: string, k: nat, sub: string, i: int)
    requires k <= |s|
    requires IsAt(s[..k], sub, i)
    ensures IsAt(s, sub, i)
  {
    assert s[..k][i..i + |sub|] == s[i..i + |sub|];
  }

  /** An occurrence that ends within a prefix is an occurrence in that prefix. */
  lemma IsAtInPrefix(s: string, k: nat, sub: string, i: int)
    requires IsAt(s, sub, i) && i + |sub| <= k <= |s|
    ensures IsAt(s[..k], sub, i)
  {
    assert s[..k][i..i + |sub|] == s[i..i + |sub|];
  }

  /** `s.split(sep)` for a non-empty separator: the pieces between the
      non-overlapping, left-to-right occurrences of `sep`. */
  function Split(s: string, sep: string): (parts: seq<string>)
    requires |sep| > 0
    ensures |parts| >= 1
    decreases |s|
  {
    var k := Find(s, sep, 0);
    if k == -1 then [s] else [s[..k]] + Split(s[k + |sep|..], sep)
  }

  /** `sep.join(parts)`. */
  function Join(parts: seq<string>, sep: string): string
  {
    if |parts| == 0 then ""
    else if |parts| == 1 then parts[0]
    else parts[0] + sep + Join(parts[1..], sep)
  }

  /** Joining one more part appends the separator and the part. */
  lemma {:induction false} JoinAppend(parts: seq<string>, p: string, sep: string)
    requires parts != []
    ensures Join(parts + [p], sep) == Join(parts, sep) + sep + p
    decreases |parts|
  {
    if |parts| > 1 {
      JoinAppend(parts[1..], p, sep);
      assert (parts + [p])[1..] == parts[1..] + [p];
    } else {
      assert (parts + [p])[1..] == [p];
    }
  }

  /** A string free of the one-character separator holds no such character. */
  lemma NoOccurrenceNoChar(s: string, c: char)
    requires !Contains(s, [c])
    ensures c !in s
  {
    forall i | 0 <= i < |s| ensures s[i] != c {
      assert !IsAt(s, [c], i);
      assert s[i..i + 1] == [s[i]];
    }
  }

  /** An occurrence inside a slice is an occurrence in the whole string. */
  lemma IsAtSlice(s: string, a: nat, b: nat, sub: string, i: int)
    requires a <= b <= |s| && IsAt(s[a..b], sub, i)
    ensures IsAt(s, sub, a + i) && a + i + |sub| <= b
  {
    var t := s[a..b];
    forall k | 0 <= k < |sub| ensures s[a + i + k] == sub[k] {
      assert t[i..i + |sub|][k] == t[i + k] == s[a + i + k];
    }
    assert s[a + i..a + i + |sub|] == sub;
  }

  /** Joining the pieces of a split with the same separator gives the string back. */
  lemma {:induction false} JoinSplit(s: string, sep: string)
    requires |sep| > 0
    ensures Join(Split(s, sep), sep) == s
    decreases |s|
  {
    var k := Find(s, sep, 0);
    if k != -1 {
      var rest := s[k + |sep|..];
      var parts := Split(rest, sep);
      JoinSplit(rest, sep);
      var all := [s[..k]] + parts;
      assert Split(s, sep) == all;
      assert all[0] == s[..k] && all[1..] == parts;
      assert Join(all, sep) == s[..k] + sep + Join(parts, sep);
      assert s == s[..k] + sep + rest;
    }
  }

  /** No piece of a split contains the separator. */
  lemma {:induction false} SplitPiecesAreFree(s: string, sep: string)
    requires |sep| > 0
    ensures forall p :: p in Split(s, sep) ==> !Contains(p, sep)
    decreases |s|
  {
    var k := Find(s, sep, 0);
    if k != -1 {
      var rest := s[k + |sep|..];
      SplitPiecesAreFree(rest, sep);
      var first := s[..k];
      if Contains(first, sep) {
        var i := Find(first, sep, 0);
        IsAtPrefix(s, k, sep, i);
        assert false;
      }
    }
  }

  /** The last piece of a join is a suffix of it. */
  lemma {:induction false} JoinEndsWithLast(parts: seq<string>, sep: string)
    requires |parts| >= 1
    ensures var j := Join(parts, sep); var l := parts[|parts| - 1];
      |l| <= |j| && j[|j| - |l|..] == l
    decreases |parts|
  {
    if |parts| > 1 {
      JoinEndsWithLast(parts[1..], sep);
      assert parts[1..][|parts[1..]| - 1] == parts[|parts| - 1];
    }
  }

  /** The last piece of a split is a suffix of the string. */
  lemma LastPieceIsSuffix(s: string, sep: string)
    requires |sep| > 0
    ensures var parts := Split(s, sep); var l := parts[|parts| - 1];
      |l| <= |s| && s[|s| - |l|..] == l
  {
    JoinSplit(s, sep);
    JoinEndsWithLast(Split(s, sep), sep);
  }

  /** The last piece of a split does not contain the separator. */
  lemma LastPieceIsFree(s: string, sep: string)
    requires |sep| > 0
    ensures var parts := Split(s, sep); !Contains(parts[|parts| - 1], sep)
  {
    var parts := Split(s, sep);
    SplitPiecesAreFree(s, sep);
    assert parts[|parts| - 1] in parts;
  }

  /** When the separator occurs, the last piece of a split comes right after an occurrence of it. */
  lemma LastPieceFollowsSeparator(s: string, sep: string)
    requires |sep| > 0 && Contains(s, sep)
    ensures var parts := Split(s, sep); var l := parts[|parts| - 1];
      |l| + |sep| <= |s| && s[|s| - |l| - |sep|..|s| - |l|] == sep
  {
    var parts := Split(s, sep);
    var k := Find(s, sep, 0);
    assert parts == [s[..k]] + Split(s[k + |sep|..], sep);
    var n := |parts| - 1;
    var l := parts[n];
    assert parts[..n] + [l] == parts;
    JoinAppend(parts[..n], l, sep);
    JoinSplit(s, sep);
    var x := Join(parts[..n], sep);
    assert s == x + sep + l;
    assert s[|s| - |l| - |sep|..|s| - |l|] == (x + sep + l)[|x|..|x| + |sep|];
  }

  /** For a one-character separator that no part contains, splitting the join
      gives the parts back: the inverse of `JoinSplit`. */
  lemma {:induction false} SplitJoin(parts: seq<string>, c: char)
    requires |parts| >= 1
    requires forall p :: p in parts ==> c !in p
    ensures Split(Join(parts, [c]), [c]) == parts
    decreases |parts|
  {
    var s := Join(parts, [c]);
    var p0 := parts[0];
    assert p0 in parts;
    var rest := Join(parts[1..], [c]);
    assert |parts| == 1 ==> s == p0;
    assert |parts| > 1 ==> s == p0 + [c] + rest;
    forall i | 0 <= i < |p0|
      ensures !IsAt(s, [c], i)
    {
      assert s[i] == p0[i];
      assert s[i..i + 1] == [s[i]];
    }
    if |parts| > 1 {
      assert IsAt(s, [c], |p0|);
      var k := Find(s, [c], 0);
      assert k == |p0|;
      assert s[..k] == p0;
      assert s[k + 1..] == rest;
      SplitJoin(parts[1..], c);
      assert parts == [p0] + parts[1..];
    }
  }

  /** Python's `str.isspace` for one character. */
  predicate IsSpace(c: char) {
    c == ' ' || c == '\t' || c == '\n' || c == '\r' || c == '\U{B}' || c == '\U{C}'
    || ('\U{1C}' <= c <= '\U{1F}') || c == '\U{85}' || c == '\U{A0}' || c == '\U{1680}'
    || ('\U{2000}' <= c <= '\U{200A}') || c == '\U{2028}' || c == '\U{2029}' || c == '\U{202F}'
    || c == '\U{205F}' || c == '\U{3000}'
  }

  /** `s.lstrip()`. */
  function LStrip(s: string): (r: string)
    ensures |r| <= |s|
    ensures forall k :: 0 <= k < |s| - |r| ==> IsSpace(s[k])
    ensures r == [] || !IsSpace(r[0])
  {
    if s != [] && IsSpace(s[0]) then LStrip(s[1..]) else s
  }

  /** `s.rstrip()`. */
  function RStrip(s: string): (r: string)
    ensures |r| <= |s|
    ensures forall k :: |r| <= k < |s| ==> IsSpace(s[k])
    ensures r == [] || !IsSpace(r[|r| - 1])
  {
    if s != [] && IsSpace(s[|s| - 1]) then RStrip(s[..|s| - 1]) else s
  }

  /** What `lstrip` keeps is a suffix of the string. */
  lemma {:induction false} LStripIsSuffix(s: string)
    ensures LStrip(s) == s[|s| - |LStrip(s)|..]
    decreases |s|
  {
    if s != [] && IsSpace(s[0]) {
      LStripIsSuffix(s[1..]);
    }
  }

  /** What `rstrip` keeps is a prefix of the string. */
  lemma {:induction false} RStripIsPrefix(s: string)
    ensures RStrip(s) == s[..|RStrip(s)|]
    decreases |s|
  {
    if s != [] && IsSpace(s[|s| - 1]) {
      RStripIsPrefix(s[..|s| - 1]);
    }
  }

  /** `s.strip()`. */
  function Strip(s: string): string {
    RStrip(LStrip(s))
  }

  /** `str.lower` on ASCII letters. */
  function LowerChar(c: char): char {
    if 'A' <= c <= 'Z' then (c as int - 'A' as int + 'a' as int) as char else c
  }

  function Lower(s: string): (r: string)
    ensures |r| == |s|
    ensures forall i :: 0 <= i < |s| ==> r[i] == LowerChar(s[i])
  {
    if s == [] then [] else [LowerChar(s[0])] + Lower(s[1..])
  }

  predicate IsDigit(c: char) {
    '0' <= c <= '9'
  }

  function DigitChar(d: nat): (c: char)
    requires d < 10
    ensures IsDigit(c)
  {
    ('0' as int + d) as char
  }

  /** `str(n)` for a non-negative integer: its decimal digits, without leading zeros. */
  function Decimal(n: nat): (r: string)
    ensures |r| >= 1
    ensures forall i :: 0 <= i < |r| ==> IsDigit(r[i])
  {
    if n < 10 then [DigitChar(n)] else Decimal(n / 10) + [DigitChar(n % 10)]
  }

  /** `int(s)` for a string of decimal digits. */
  function ParseDecimal(s: string): nat
    requires forall i :: 0 <= i < |s| ==> IsDigit(s[i])
  {
    if s == [] then 0
    else
      assert IsDigit(s[|s| - 1]);
      ParseDecimal(s[..|s| - 1]) * 10 + (s[|s| - 1] as int - '0' as int)
  }

  /** Reading the decimal rendering back gives the number: the rendering is injective. */
  lemma {:induction false} DecimalRoundTrip(n: nat)
    ensures ParseDecimal(Decimal(n)) == n
  {
    if n >= 10 {
      DecimalRoundTrip(n / 10);
      var r := Decimal(n);
      assert r[..|r| - 1] == Decimal(n / 10);
    }
  }

  lemma DecimalInjective(m: nat, n: nat)
    requires Decimal(m) == Decimal(n)
    ensures m == n
  {
    DecimalRoundTrip(m);
    DecimalRoundTrip(n);
  }
}
