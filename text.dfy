/**
 * The JavaScript string operations the compiler scripts rely on: `startsWith`,
 * `indexOf`, `replace` with a string pattern (first occurrence only), `split`
 * on a one-character separator, `join`, `trim`, `replace(/c/g, '')` and the
 * decimal rendering of an index inside a template literal.
 */
module Text {

  predicate StartsWith(s: string, prefix: string) {
    |prefix| <= |s| && s[..|prefix|] == prefix
  }

  /** Text cannot start with two prefixes that begin with different characters. */
  lemma StartsWithOne(s: string, p: string, q: string)
    requires StartsWith(s, p) && 0 < |p| && 0 < |q| && p[0] != q[0]
    ensures !StartsWith(s, q)
  {
    assert s[0] == p[0];
  }

  /** `s` holds `p` at position `i`. */
  predicate OccursAt(s: string, p: string, i: int) {
    0 <= i && i + |p| <= |s| && s[i..i + |p|] == p
  }

  /** `s.indexOf(p)`: the first position at which `p` occurs in `s`, or -1. */
  function IndexOf(s: string, p: string): (i: int)
    ensures i == -1 || OccursAt(s, p, i)
    ensures i == -1 ==> forall k :: 0 <= k <= |s| - |p| ==> !OccursAt(s, p, k)
    ensures i >= 0 ==> forall k :: 0 <= k < i ==> !OccursAt(s, p, k)
  {
    if StartsWith(s, p) then 0
    else if |s| == 0 then -1
    else
      var j := IndexOf(s[1..], p);
      forall k | 1 <= k <= |s| - |p|
        ensures OccursAt(s, p, k) <==> OccursAt(s[1..], p, k - 1)
      {
        SliceShift(s, k, |p|);
      }
      if j < 0 then -1 else j + 1
  }

  /** A slice of `s` that starts after the first character is the same slice of `s[1..]`, one position earlier. */
  lemma SliceShift(s: string, k: int, n: nat)
    requires 1 <= k && k + n <= |s|
    ensures s[k..k + n] == s[1..][k - 1..k - 1 + n]
  {
    var a, b := s[k..k + n], s[1..][k - 1..k - 1 + n];
    forall j | 0 <= j < n
      ensures a[j] == b[j]
    {
      assert a[j] == s[k + j] && b[j] == s[1..][k - 1 + j];
    }
  }

  /** `s.replace(p, r)` with a string pattern: only the first occurrence is replaced. */
  function ReplaceFirst(s: string, p: string, r: string): string {
    var i := IndexOf(s, p);
    if i < 0 then s else s[..i] + r + s[i + |p|..]
  }

  /** Removing a pattern the string starts with removes exactly that prefix. */
  lemma ReplaceFirstAtStart(s: string, p: string)
    requires StartsWith(s, p)
    ensures ReplaceFirst(s, p, "") == s[|p|..]
  {
    assert IndexOf(s, p) == 0;
  }

  /** An occurrence with none before it is the one `indexOf` finds. */
  lemma IndexOfFirst(s: string, p: string, i: nat)
    requires OccursAt(s, p, i) && forall k :: 0 <= k < i ==> !OccursAt(s, p, k)
    ensures IndexOf(s, p) == i
  {
  }

  /** Without any occurrence `indexOf` gives -1. */
  lemma IndexOfNone(s: string, p: string)
    requires forall k :: 0 <= k <= |s| - |p| ==> !OccursAt(s, p, k)
    ensures IndexOf(s, p) == -1
  {
  }

  /** A pattern that does not occur in `s` does not occur in what follows its first `n` characters. */
  lemma IndexOfDrop(s: string, p: string, n: nat)
    requires IndexOf(s, p) < 0 && n <= |s|
    ensures IndexOf(s[n..], p) < 0
  {
    var u := s[n..];
    forall k | 0 <= k <= |u| - |p|
      ensures !OccursAt(u, p, k)
    {
      assert u[k..k + |p|] == s[n + k..n + k + |p|];
      assert !OccursAt(s, p, n + k);
    }
    IndexOfNone(u, p);
  }

  /** An occurrence in `s` is one in `q + s`, `|q|` positions later. */
  lemma OccursShift(q: string, s: string, p: string, k: nat)
    ensures OccursAt(q + s, p, |q| + k) <==> OccursAt(s, p, k)
  {
    if k + |p| <= |s| {
      assert (q + s)[|q| + k..|q| + k + |p|] == s[k..k + |p|];
    }
  }

  /** With no occurrence starting in `q`, the first occurrence in `q + s` is the first one in `s`, moved along. */
  lemma IndexOfAfter(q: string, s: string, p: string)
    requires forall k :: 0 <= k < |q| ==> !OccursAt(q + s, p, k)
    ensures IndexOf(q + s, p) == if IndexOf(s, p) < 0 then -1 else |q| + IndexOf(s, p)
  {
    var u, i := q + s, IndexOf(s, p);
    forall k | |q| <= k
      ensures OccursAt(u, p, k) <==> OccursAt(s, p, k - |q|)
    {
      OccursShift(q, s, p, k - |q|);
    }
    if i < 0 {
      IndexOfNone(u, p);
    } else {
      OccursShift(q, s, p, i);
      IndexOfFirst(u, p, |q| + i);
    }
  }

  /**
   * Text put in front of `s` in which no occurrence of `p` starts moves the first
   * occurrence along: `(q + s).replace(p, '')` is `q + s.replace(p, '')`.
   */
  lemma ReplaceFirstAfter(q: string, s: string, p: string)
    requires forall k :: 0 <= k < |q| ==> !OccursAt(q + s, p, k)
    ensures ReplaceFirst(q + s, p, "") == q + ReplaceFirst(s, p, "")
  {
    IndexOfAfter(q, s, p);
    var i := IndexOf(s, p);
    if i < 0 {
      ReplaceFirstCut(q + s, p);
      ReplaceFirstCut(s, p);
    } else {
      ReplaceFirstCut(q + s, p);
      ReplaceFirstCut(s, p);
      SpliceAfter(q, s, i, |p|);
    }
  }

  /** Removing the first occurrence cuts it out of the text, if there is one. */
  lemma ReplaceFirstCut(s: string, p: string)
    ensures var i := IndexOf(s, p);
            ReplaceFirst(s, p, "") == if i < 0 then s else s[..i] + "" + s[i + |p|..]
  {
  }

  /** Cutting `n` characters at `i` out of `s` is cutting them `|q|` later out of `q + s`. */
  lemma SpliceAfter(q: string, s: string, i: nat, n: nat)
    requires i + n <= |s|
    ensures (q + s)[..|q| + i] + "" + (q + s)[|q| + i + n..] == q + (s[..i] + "" + s[i + n..])
  {
    var u := q + s;
    assert u[..|q| + i] == q + s[..i];
    assert u[|q| + i + n..] == s[i + n..];
  }

  /** The position of the first `c` in `s`. */
  function CharIndex(s: string, c: char): (i: nat)
    requires c in s
    ensures i < |s| && s[i] == c && c !in s[..i]
  {
    if s[0] == c then 0 else CharIndex(s[1..], c) + 1
  }

  /** A `c` with no `c` before it is the first one. */
  lemma CharIndexAt(s: string, c: char, i: nat)
    requires i < |s| && s[i] == c && c !in s[..i]
    ensures c in s && CharIndex(s, c) == i
  {
    assert s[i] in s;
  }

  /** Dropping a prefix of `s` from `s + t` keeps all of `t`. */
  lemma DropAppend(s: string, t: string, i: nat)
    requires i <= |s|
    ensures (s + t)[i..] == s[i..] + t
  {
    var a, b := (s + t)[i..], s[i..] + t;
    forall k | 0 <= k < |a|
      ensures a[k] == b[k]
    {
      assert a[k] == (s + t)[i + k];
    }
  }

  /** Text appended after the first `c` does not move it. */
  lemma CharIndexAppend(s: string, t: string, c: char)
    requires c in s
    ensures c in s + t && CharIndex(s + t, c) == CharIndex(s, c)
  {
    if s[0] != c {
      assert (s + t)[1..] == s[1..] + t;
      CharIndexAppend(s[1..], t, c);
    }
  }

  /** When `s` has no `c`, the first `c` of `s + [c] + t` is the one after `s`. */
  lemma CharIndexAfter(s: string, t: string, c: char)
    requires c !in s
    ensures CharIndex(s + [c] + t, c) == |s|
  {
    var u := s + [c] + t;
    assert u[|s|] == c && u[..|s|] == s;
  }

  /** `parts.join(sep)`. */
  function Join(parts: seq<string>, sep: string): string {
    if |parts| == 0 then ""
    else if |parts| == 1 then parts[0]
    else parts[0] + sep + Join(parts[1..], sep)
  }

  /** `s.split(c)` for a one-character separator: every segment, empty ones included. */
  function Split(s: string, c: char): (parts: seq<string>)
    ensures |parts| >= 1
    ensures |parts| >= 2 <==> c in s
    ensures forall k :: 0 <= k < |parts| ==> c !in parts[k]
    ensures Join(parts, [c]) == s
  {
    if c !in s then [s]
    else
      var i := CharIndex(s, c);
      var rest := Split(s[i + 1..], c);
      assert s == s[..i] + [c] + s[i + 1..];
      [s[..i]] + rest
  }

  /** The first two segments of a split: the text before the first `c`, then the text up to the next one. */
  lemma SplitHead(s: string, c: char)
    requires c in s
    ensures var i := CharIndex(s, c);
            var tail := s[i + 1..];
            && Split(s, c)[0] == s[..i]
            && Split(s, c)[1] == (if c in tail then tail[..CharIndex(tail, c)] else tail)
  {
    var tail := s[CharIndex(s, c) + 1..];
    if c in tail {
      assert Split(tail, c)[0] == tail[..CharIndex(tail, c)];
    }
  }

  /** The characters `String.prototype.trim` removes: ECMAScript WhiteSpace and LineTerminator. */
  predicate IsSpace(ch: char) {
    ch in {' ', '\t', '\n', '\r', '\U{000B}', '\U{000C}', '\U{00A0}', '\U{1680}',
           '\U{2000}', '\U{2001}', '\U{2002}', '\U{2003}', '\U{2004}', '\U{2005}',
           '\U{2006}', '\U{2007}', '\U{2008}', '\U{2009}', '\U{200A}', '\U{2028}',
           '\U{2029}', '\U{202F}', '\U{205F}', '\U{3000}', '\U{FEFF}'}
  }

  /** The number of white-space characters `s` starts with. */
  function LeadingSpace(s: string): (n: nat)
    ensures n <= |s|
    ensures forall k :: 0 <= k < n ==> IsSpace(s[k])
    ensures n < |s| ==> !IsSpace(s[n])
  {
    if |s| > 0 && IsSpace(s[0]) then
      var n := LeadingSpace(s[1..]);
      assert forall k :: 1 <= k < n + 1 ==> s[k] == s[1..][k - 1];
      n + 1
    else 0
  }

  /** The number of white-space characters `s` ends with. */
  function TrailingSpace(s: string): (n: nat)
    ensures n <= |s|
    ensures forall k :: |s| - n <= k < |s| ==> IsSpace(s[k])
    ensures n < |s| ==> !IsSpace(s[|s| - n - 1])
  {
    if |s| > 0 && IsSpace(s[|s| - 1]) then
      var n := TrailingSpace(s[..|s| - 1]);
      n + 1
    else 0
  }

  /** `s.trim()`: `s` without the white space at either end. */
  function Trim(s: string): (t: string)
    ensures |t| == 0 || (!IsSpace(t[0]) && !IsSpace(t[|t| - 1]))
    ensures LeadingSpace(s) + |t| <= |s| && t == s[LeadingSpace(s)..LeadingSpace(s) + |t|]
    ensures forall k :: 0 <= k < LeadingSpace(s) ==> IsSpace(s[k])
    ensures forall k :: LeadingSpace(s) + |t| <= k < |s| ==> IsSpace(s[k])
  {
    var n := LeadingSpace(s);
    var rest := s[n..];
    var m := TrailingSpace(rest);
    var t := rest[..|rest| - m];
    assert |t| > 0 ==> t[0] == s[n] && t[|t| - 1] == rest[|rest| - m - 1];
    assert t == s[n..n + |t|];
    assert forall k :: n + |t| <= k < |s| ==> s[k] == rest[k - n];
    t
  }

  /** `s.replace(/c/g, '')`: every occurrence of `c` removed. */
  function RemoveChar(s: string, c: char): (t: string)
    ensures c !in t
    ensures forall ch :: ch in t <==> ch in s && ch != c
    ensures forall ch :: multiset(t)[ch] == if ch == c then 0 else multiset(s)[ch]
    ensures c !in s ==> t == s
  {
    if |s| == 0 then ""
    else
      var rest := RemoveChar(s[1..], c);
      assert s == [s[0]] + s[1..];
      assert forall ch :: ch in s <==> ch == s[0] || ch in s[1..];
      if s[0] == c then rest else [s[0]] + rest
  }

  /** Removing `c` keeps the order of what stays: it works piece by piece, one character at a time. */
  lemma {:induction false} RemoveCharAppend(a: string, b: string, c: char)
    ensures RemoveChar(a + b, c) == RemoveChar(a, c) + RemoveChar(b, c)
    ensures forall ch :: RemoveChar([ch], c) == if ch == c then "" else [ch]
    decreases |a|
  {
    if |a| > 0 {
      assert (a + b)[0] == a[0] && (a + b)[1..] == a[1..] + b;
      RemoveCharAppend(a[1..], b, c);
    } else {
      assert a + b == b;
    }
    forall ch
      ensures RemoveChar([ch], c) == if ch == c then "" else [ch]
    {
      assert [ch][1..] == "";
    }
  }

  function DigitChar(d: nat): (ch: char)
    requires d < 10
    ensures '0' <= ch <= '9' && DigitValue(ch) == d
  {
    ('0' as int + d) as char
  }

  function DigitValue(ch: char): int {
    ch as int - '0' as int
  }

  /** The number a string of decimal digits denotes. */
  function DecimalValue(s: string): int {
    if |s| == 0 then 0 else DecimalValue(s[..|s| - 1]) * 10 + DigitValue(s[|s| - 1])
  }

  /**
   * The decimal text JavaScript gives a non-negative integer in a template literal:
   * digits that read back as `n`, without a leading zero.
   */
  function NatToString(n: nat): (s: string)
    ensures |s| > 0
    ensures forall k :: 0 <= k < |s| ==> '0' <= s[k] <= '9'
    ensures DecimalValue(s) == n
    ensures s[0] == '0' ==> n == 0
  {
    if n < 10 then [DigitChar(n)]
    else
      var init := NatToString(n / 10);
      var s := init + [DigitChar(n % 10)];
      assert s[..|s| - 1] == init && s[0] == init[0];
      s
  }
}
