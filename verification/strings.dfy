/**
 * The part of Python's `str` behaviour the agents rely on: substring search,
 * prefix tests, ASCII case mapping, whitespace stripping, splitting, joining,
 * replacement, line reading and decimal conversion.
 */
module Strings {
  import opened Wrappers

  /** `sub` occurs in `s` starting at index `i`. */
  predicate OccursAt(s: string, sub: string, i: int)
  {
    0 <= i && i + |sub| <= |s| && s[i..i + |sub|] == sub
  }

  lemma OccursAtShift(s: string, sub: string, j: int)
    requires |s| > 0 && j >= 1
    ensures OccursAt(s, sub, j) <==> OccursAt(s[1..], sub, j - 1)
  {
    if j + |sub| <= |s| {
      assert s[1..][j - 1..j - 1 + |sub|] == s[j..j + |sub|];
    }
  }

  /** Python `s.find(sub)`: the index of the first occurrence of `sub`, or -1. */
  function Find(s: string, sub: string): (r: int)
    ensures -1 <= r <= |s|
    ensures r >= 0 ==> OccursAt(s, sub, r)
    ensures forall j :: 0 <= j && (r < 0 || j < r) ==> !OccursAt(s, sub, j)
    decreases |s|
  {
    if sub <= s then
      0
    else if |s| == 0 then
      -1
    else
      var k := Find(s[1..], sub);
      assert forall j :: 1 <= j ==> (OccursAt(s, sub, j) <==> OccursAt(s[1..], sub, j - 1)) by {
        forall j | 1 <= j ensures OccursAt(s, sub, j) <==> OccursAt(s[1..], sub, j - 1) {
          OccursAtShift(s, sub, j);
        }
      }
      if k < 0 then -1 else k + 1
  }

  /** Python `sub in s`. */
  predicate Contains(s: string, sub: string)
  {
    Find(s, sub) >= 0
  }

  lemma ContainsIff(s: string, sub: string)
    ensures Contains(s, sub) <==> exists j :: OccursAt(s, sub, j)
  {
    if !Contains(s, sub) {
      forall j ensures !OccursAt(s, sub, j) {
      }
    }
  }

  /** A one-character string occurs only where that character does. */
  lemma NotContainsChar(s: string, c: char)
    requires forall i :: 0 <= i < |s| ==> s[i] != c
    ensures !Contains(s, [c])
  {
    forall j | 0 <= j ensures !OccursAt(s, [c], j) {
      if j + 1 <= |s| {
        assert s[j..j + 1][0] == s[j];
      }
    }
  }

  /** A string without a character has it at no position. */
  lemma CharAbsent(s: string, c: char)
    requires !Contains(s, [c])
    ensures forall i :: 0 <= i < |s| ==> s[i] != c
  {
    forall i | 0 <= i < |s| ensures s[i] != c {
      if s[i] == c {
        assert s[i..i + 1] == [c];
        FindAtMost(s, [c], i);
      }
    }
  }

  /** A slice of a string without a character lacks it too. */
  lemma SliceAvoids(s: string, t: string, lo: int, hi: int, c: char)
    requires 0 <= lo <= hi <= |s| && t == s[lo..hi]
    requires forall i :: 0 <= i < |s| ==> s[i] != c
    ensures forall i :: 0 <= i < |t| ==> t[i] != c
  {
  }

  /** Text holding a character the string lacks does not occur in it. */
  lemma MissingChar(s: string, sub: string, k: int)
    requires 0 <= k < |sub| && forall i :: 0 <= i < |s| ==> s[i] != sub[k]
    ensures !Contains(s, sub)
  {
    forall j | 0 <= j ensures !OccursAt(s, sub, j) {
      if j + |sub| <= |s| {
        assert s[j..j + |sub|][k] == s[j + k];
      }
    }
    ContainsIff(s, sub);
  }

  lemma ContainsEmpty(s: string)
    ensures Contains(s, "")
  {
    assert OccursAt(s, "", 0);
  }

  /** Python `s.startswith(p)`. */
  predicate StartsWith(s: string, p: string)
  {
    p <= s
  }

  /** Python `s.endswith(p)`. */
  predicate EndsWith(s: string, p: string)
  {
    |p| <= |s| && s[|s| - |p|..] == p
  }

  function LowerChar(c: char): char
  {
    if 'A' <= c <= 'Z' then (c as int + 32) as char else c
  }

  function UpperChar(c: char): char
  {
    if 'a' <= c <= 'z' then (c as int - 32) as char else c
  }

  predicate IsLetter(c: char)
  {
    'a' <= c <= 'z' || 'A' <= c <= 'Z'
  }

  /** Python `s.lower()` on ASCII letters. */
  function Lower(s: string): (r: string)
  {
    seq(|s|, i requires 0 <= i < |s| => LowerChar(s[i]))
  }

  /** Python `s.upper()` on ASCII letters. */
  function Upper(s: string): (r: string)
  {
    seq(|s|, i requires 0 <= i < |s| => UpperChar(s[i]))
  }

  /**
   * Python `s.title()` on ASCII: a letter that follows a letter is lowered,
   * any other letter is raised.
   */
  function Title(s: string): (r: string)
  {
    seq(|s|, i requires 0 <= i < |s| =>
      if IsLetter(s[i]) && i > 0 && IsLetter(s[i - 1]) then LowerChar(s[i]) else UpperChar(s[i]))
  }

  predicate IsSpace(c: char)
  {
    c == ' ' || c == '\t' || c == '\n' || c == '\r' || c as int == 11 || c as int == 12
  }

  /** Python `s.lstrip()`. */
  function LStrip(s: string): (r: string)
    ensures |r| <= |s| && r == s[|s| - |r|..]
    ensures r == [] || !IsSpace(r[0])
    ensures forall i :: 0 <= i < |s| - |r| ==> IsSpace(s[i])
  {
    if s != [] && IsSpace(s[0]) then LStrip(s[1..]) else s
  }

  /** Python `s.rstrip()`. */
  function RStrip(s: string): (r: string)
    ensures |r| <= |s| && r == s[..|r|]
    ensures r == [] || !IsSpace(r[|r| - 1])
    ensures forall i :: |r| <= i < |s| ==> IsSpace(s[i])
  {
    if s != [] && IsSpace(s[|s| - 1]) then RStrip(s[..|s| - 1]) else s
  }

  /** Python `s.strip()`. */
  function Strip(s: string): (r: string)
  {
    RStrip(LStrip(s))
  }

  /** Left-stripping removes exactly an indentation of spaces before a non-space character. */
  lemma {:induction false} LStripIndent(indent: string, rest: string)
    requires forall i :: 0 <= i < |indent| ==> IsSpace(indent[i])
    requires rest == [] || !IsSpace(rest[0])
    ensures LStrip(indent + rest) == rest
    decreases |indent|
  {
    if indent != [] {
      assert (indent + rest)[1..] == indent[1..] + rest;
      LStripIndent(indent[1..], rest);
    } else {
      assert indent + rest == rest;
    }
  }

  /** A string that neither starts nor ends with a space is its own strip. */
  lemma StripUnpadded(s: string)
    requires s != [] && !IsSpace(s[0]) && !IsSpace(s[|s| - 1])
    ensures Strip(s) == s
  {
  }

  /** The length of the run of non-space characters that starts `s`. */
  function WordLength(s: string): (n: nat)
    ensures n <= |s| && (n == |s| || IsSpace(s[n]))
    ensures forall i :: 0 <= i < n ==> !IsSpace(s[i])
  {
    if s == [] || IsSpace(s[0]) then 0 else 1 + WordLength(s[1..])
  }

  /** Python `s.split()`: the maximal runs of non-space characters, in order. */
  function Words(s: string): (r: seq<string>)
    ensures forall i :: 0 <= i < |r| ==> r[i] != []
    decreases |s|
  {
    var t := LStrip(s);
    if t == [] then []
    else
      var n := WordLength(t);
      [t[..n]] + Words(t[n..])
  }

  /** The text before the first space that follows the leading space: `s.split()[0]` when `s` is not blank. */
  function FirstWordOf(s: string): (r: string)
  {
    LStrip(s)[..WordLength(LStrip(s))]
  }

  /** The first of the words is `FirstWordOf`, and there is one exactly when the text is not blank. */
  lemma FirstWord(s: string)
    ensures Words(s) == [] <==> LStrip(s) == []
    ensures Words(s) != [] ==> Words(s)[0] == FirstWordOf(s)
  {
  }

  /** The first word is the slice of the text right after the leading space. */
  lemma FirstWordSlice(s: string, t: string, n: int)
    requires t == LStrip(s) && n == WordLength(t)
    ensures |s| - |t| + n <= |s|
    ensures t[..n] == s[|s| - |t|..|s| - |t| + n]
  {
    PrefixOfTail(s, t, n);
  }

  lemma PrefixOfTail(s: string, t: string, n: int)
    requires |t| <= |s| && t == s[|s| - |t|..] && 0 <= n <= |t|
    ensures t[..n] == s[|s| - |t|..|s| - |t| + n]
  {
  }

  /** Text found in the first word is found in the whole. */
  lemma FirstWordInside(s: string, x: string)
    requires Contains(FirstWordOf(s), x)
    ensures Contains(s, x)
  {
    var t := LStrip(s);
    var n := WordLength(t);
    PrefixInside(s, t, n, x);
  }

  lemma PrefixInside(s: string, t: string, n: int, x: string)
    requires |t| <= |s| && t == s[|s| - |t|..] && 0 <= n <= |t| && Contains(t[..n], x)
    ensures Contains(s, x)
  {
    PrefixOfTail(s, t, n);
    ContainsInSlice(s, |s| - |t|, |s| - |t| + n, x);
  }

  /** Python `sep.join(parts)`. */
  function Join(parts: seq<string>, sep: string): string
  {
    if |parts| == 0 then ""
    else if |parts| == 1 then parts[0]
    else parts[0] + sep + Join(parts[1..], sep)
  }

  /** Python `s.split(sep)` for a non-empty separator; Python refuses an empty one. */
  function Split(s: string, sep: string): (r: seq<string>)
    requires |sep| > 0
    ensures |r| >= 1
    ensures Join(r, sep) == s
    ensures forall i :: 0 <= i < |r| ==> !Contains(r[i], sep)
    decreases |s|
  {
    var k := Find(s, sep);
    if k < 0 then [s]
    else
      var rest := Split(s[k + |sep|..], sep);
      assert s == s[..k] + sep + s[k + |sep|..];
      assert !Contains(s[..k], sep) by {
        forall j | 0 <= j ensures !OccursAt(s[..k], sep, j) {
          OccursInPrefix(s, sep, k, j);
        }
      }
      [s[..k]] + rest
  }

  /** Text found in a slice is found in the whole. */
  lemma ContainsInSlice(s: string, lo: int, hi: int, x: string)
    requires 0 <= lo <= hi <= |s| && Contains(s[lo..hi], x)
    ensures Contains(s, x)
  {
    var t := s[lo..hi];
    var j := Find(t, x);
    SliceOfSlice(s, t, lo, hi, j, |x|);
    assert OccursAt(s, x, lo + j);
    ContainsIff(s, x);
  }

  lemma SliceOfSlice(s: string, t: string, lo: int, hi: int, j: int, n: int)
    requires 0 <= lo <= hi <= |s| && t == s[lo..hi] && 0 <= j && 0 <= n && j + n <= |t|
    ensures t[j..j + n] == s[lo + j..lo + j + n]
  {
    var u, v := t[j..j + n], s[lo + j..lo + j + n];
    forall k | 0 <= k < n
      ensures u[k] == v[k]
    {
      assert u[k] == t[j + k] == s[lo + j + k];
    }
  }

  lemma ContainsSelf(x: string)
    ensures Contains(x, x)
  {
    assert x[0..|x|] == x;
    assert OccursAt(x, x, 0);
  }

  /** Text found in the middle part of a concatenation is found in the whole. */
  lemma ContainsInMiddle(a: string, b: string, c: string, x: string)
    requires Contains(b, x)
    ensures Contains(a + b + c, x)
  {
    var s := a + b + c;
    assert s[|a|..|a| + |b|] == b;
    ContainsInSlice(s, |a|, |a| + |b|, x);
  }

  /** Text found in one of the parts of a split is found in the whole. */
  lemma SplitPartsInside(s: string, sep: string, x: string, i: int)
    requires |sep| > 0 && 0 <= i < |Split(s, sep)| && Contains(Split(s, sep)[i], x)
    ensures Contains(s, x)
  {
    var parts := Split(s, sep);
    JoinContainsPart(parts, sep, i);
    ContainsTrans(Join(parts, sep), parts[i], x);
  }

  /** Text found in text found in `s` is found in `s`. */
  lemma ContainsTrans(s: string, y: string, x: string)
    requires Contains(s, y) && Contains(y, x)
    ensures Contains(s, x)
  {
    var j := Find(s, y);
    ContainsInSlice(s, j, j + |y|, x);
  }

  /** The first occurrence is no later than any occurrence. */
  lemma FindAtMost(s: string, sub: string, k: int)
    requires OccursAt(s, sub, k)
    ensures 0 <= Find(s, sub) <= k
  {
  }

  /** An occurrence at or after `lo` is found in the text from `lo` on. */
  lemma ContainsInTail(s: string, lo: int, sub: string, k: int)
    requires 0 <= lo <= k && OccursAt(s, sub, k)
    ensures Contains(s[lo..], sub)
  {
    OccursInSuffix(s, lo, sub, k - lo);
    FindAtMost(s[lo..], sub, k - lo);
  }

  /** An occurrence in a suffix is an occurrence in the whole, shifted. */
  lemma OccursInSuffix(s: string, lo: int, sub: string, k: int)
    requires 0 <= lo <= |s|
    ensures OccursAt(s[lo..], sub, k) <==> 0 <= k && OccursAt(s, sub, lo + k)
  {
    if 0 <= k && lo + k + |sub| <= |s| {
      assert s[lo..][k..k + |sub|] == s[lo + k..lo + k + |sub|];
    }
  }

  lemma SplitNoSeparator(s: string, sep: string)
    requires |sep| > 0 && !Contains(s, sep)
    ensures Split(s, sep) == [s]
  {
  }

  lemma OccursInPrefix(s: string, sub: string, k: int, j: int)
    requires 0 <= k <= |s|
    ensures OccursAt(s[..k], sub, j) ==> OccursAt(s, sub, j) && j + |sub| <= k
  {
    if OccursAt(s[..k], sub, j) {
      assert s[..k][j..j + |sub|] == s[j..j + |sub|];
    }
  }

  /** A string contains every part of a join. */
  lemma {:induction false} JoinContainsPart(parts: seq<string>, sep: string, i: int)
    requires 0 <= i < |parts|
    ensures Contains(Join(parts, sep), parts[i])
    decreases |parts|
  {
    var j := Join(parts, sep);
    if |parts| == 1 {
      assert OccursAt(j, parts[0], 0);
      ContainsIff(j, parts[0]);
    } else {
      var rest := Join(parts[1..], sep);
      assert j == parts[0] + sep + rest;
      if i == 0 {
        assert j[0..|parts[0]|] == parts[0];
        assert OccursAt(j, parts[0], 0);
        ContainsIff(j, parts[0]);
      } else {
        JoinContainsPart(parts[1..], sep, i - 1);
        assert j[|parts[0]| + |sep|..|j|] == rest;
        ContainsInSlice(j, |parts[0]| + |sep|, |j|, parts[i]);
      }
    }
  }

  /** The first occurrence of a character is the one right after a prefix free of it. */
  lemma FindCharAfter(p: string, c: char, rest: string)
    requires !Contains(p, [c])
    ensures Find(p + [c] + rest, [c]) == |p|
  {
    var s := p + [c] + rest;
    assert s[|p|..|p| + 1] == [c];
    assert OccursAt(s, [c], |p|);
    ContainsIff(p, [c]);
    forall j | 0 <= j < |p|
      ensures !OccursAt(s, [c], j)
    {
      if OccursAt(s, [c], j) {
        assert s[j..j + 1] == p[j..j + 1];
        assert OccursAt(p, [c], j);
      }
    }
  }

  /** Splitting a join on a one-character separator gives the parts back when no part holds that character. */
  lemma {:induction false} SplitJoin(parts: seq<string>, c: char)
    requires |parts| >= 1
    requires forall i :: 0 <= i < |parts| ==> !Contains(parts[i], [c])
    ensures Split(Join(parts, [c]), [c]) == parts
    decreases |parts|
  {
    if |parts| == 1 {
      SplitNoSeparator(parts[0], [c]);
    } else {
      var j := Join(parts, [c]);
      var rest := Join(parts[1..], [c]);
      assert j == parts[0] + [c] + rest;
      FindCharAfter(parts[0], c, rest);
      assert j[|parts[0]| + 1..] == rest;
      assert j[..|parts[0]|] == parts[0];
      SplitJoin(parts[1..], c);
      assert parts == [parts[0]] + parts[1..];
    }
  }

  /**
   * Python `s.split(sep, 1)`: the text before the first occurrence and the text after it,
   * or the whole string when `sep` does not occur; Python refuses an empty separator.
   */
  function SplitFirst(s: string, sep: string): (r: seq<string>)
    requires |sep| > 0
    ensures 1 <= |r| <= 2
    ensures |r| == 1 <==> !Contains(s, sep)
    ensures |r| == 1 ==> r[0] == s
    ensures |r| == 2 ==> s == r[0] + sep + r[1] && !Contains(r[0], sep) && |r[0]| == Find(s, sep)
  {
    var k := Find(s, sep);
    if k < 0 then [s]
    else
      assert s == s[..k] + sep + s[k + |sep|..];
      assert !Contains(s[..k], sep) by {
        forall j | 0 <= j ensures !OccursAt(s[..k], sep, j) {
          OccursInPrefix(s, sep, k, j);
        }
      }
      [s[..k], s[k + |sep|..]]
  }

  /** Python `s.replace(pat, rep, 1)`. */
  function ReplaceFirst(s: string, pat: string, rep: string): (r: string)
    ensures !Contains(s, pat) ==> r == s
    ensures Contains(s, pat) ==> exists k :: OccursAt(s, pat, k) && r == s[..k] + rep + s[k + |pat|..]
  {
    var k := Find(s, pat);
    if k < 0 then s else s[..k] + rep + s[k + |pat|..]
  }

  /** Python `s.replace(pat, rep)` for a non-empty `pat`: every non-overlapping occurrence, left to right. */
  function ReplaceAll(s: string, pat: string, rep: string): (r: string)
    requires |pat| > 0
  {
    Join(Split(s, pat), rep)
  }

  lemma ReplaceAllAbsent(s: string, pat: string, rep: string)
    requires |pat| > 0 && !Contains(s, pat)
    ensures ReplaceAll(s, pat, rep) == s
  {
  }

  /** The concatenation of a list of strings. */
  function Concat(parts: seq<string>): string
  {
    if |parts| == 0 then "" else parts[0] + Concat(parts[1..])
  }

  lemma {:induction false} ConcatAppend(a: seq<string>, b: seq<string>)
    ensures Concat(a + b) == Concat(a) + Concat(b)
  {
    if a == [] {
      assert a + b == b;
    } else {
      assert (a + b)[1..] == a[1..] + b;
      ConcatAppend(a[1..], b);
    }
  }

  /** Cutting a list of strings anywhere cuts their concatenation at the matching place. */
  lemma ConcatSplitAt(parts: seq<string>, i: int)
    requires 0 <= i <= |parts|
    ensures Concat(parts) == Concat(parts[..i]) + Concat(parts[i..])
    ensures |Concat(parts[..i])| <= |Concat(parts)|
  {
    assert parts == parts[..i] + parts[i..];
    ConcatAppend(parts[..i], parts[i..]);
  }

  /**
   * Python `f.readlines()`: the text cut after every newline; every line but the last
   * ends in a newline, and no line is empty.
   */
  function ReadLines(s: string): (r: seq<string>)
    ensures Concat(r) == s
    ensures forall i :: 0 <= i < |r| ==> |r[i]| > 0
    ensures forall i :: 0 <= i < |r| - 1 ==> r[i][|r[i]| - 1] == '\n'
    decreases |s|
  {
    if s == [] then []
    else
      var k := Find(s, "\n");
      if k < 0 then [s]
      else
        var head, rest := s[..k + 1], ReadLines(s[k + 1..]);
        assert s == head + s[k + 1..];
        assert head[k] == s[k..k + 1][0] == '\n';
        assert ([head] + rest)[1..] == rest;
        [head] + rest
  }

  function DigitChar(d: nat): char
    requires d < 10
  {
    ('0' as int + d) as char
  }

  predicate IsDigit(c: char)
  {
    '0' <= c <= '9'
  }

  function DigitValue(c: char): nat
    requires IsDigit(c)
  {
    c as int - '0' as int
  }

  /** Python `str(n)` for a natural number. */
  function NatToString(n: nat): (r: string)
    ensures |r| > 0
    ensures forall i :: 0 <= i < |r| ==> IsDigit(r[i])
    decreases n
  {
    if n < 10 then [DigitChar(n)] else NatToString(n / 10) + [DigitChar(n % 10)]
  }

  /** The value of a string of decimal digits. */
  function DigitsValue(s: string): nat
    requires forall i :: 0 <= i < |s| ==> IsDigit(s[i])
  {
    if |s| == 0 then 0 else 10 * DigitsValue(s[..|s| - 1]) + DigitValue(s[|s| - 1])
  }

  /**
   * Python `int(s)` on a string: surrounding whitespace is ignored, an optional sign
   * is accepted, and at least one decimal digit must follow; anything else is refused.
   */
  function ParseInt(s: string): (r: Option<int>)
  {
    var t := Strip(s);
    if |t| > 0 && (t[0] == '-' || t[0] == '+') then
      var body := t[1..];
      if |body| > 0 && forall i :: 0 <= i < |body| ==> IsDigit(body[i]) then
        var v: int := DigitsValue(body);
        Some(if t[0] == '-' then -v else v)
      else None
    else if |t| > 0 && forall i :: 0 <= i < |t| ==> IsDigit(t[i]) then
      Some(DigitsValue(t))
    else None
  }

  lemma {:induction false} DigitsValueOfNatToString(n: nat)
    ensures DigitsValue(NatToString(n)) == n
    decreases n
  {
    var s := NatToString(n);
    if n >= 10 {
      DigitsValueOfNatToString(n / 10);
      assert s[..|s| - 1] == NatToString(n / 10);
    }
  }

  lemma StripOfDigits(s: string)
    requires |s| > 0 && forall i :: 0 <= i < |s| ==> IsDigit(s[i])
    ensures Strip(s) == s
  {
  }

  /** Decimal conversion round trip: `int(str(n)) == n`. */
  lemma ParseIntOfNatToString(n: nat)
    ensures ParseInt(NatToString(n)) == Some(n)
  {
    var s := NatToString(n);
    StripOfDigits(s);
    DigitsValueOfNatToString(n);
    assert Strip(s) == s;
    assert s[0] != '-' && s[0] != '+' by { assert IsDigit(s[0]); }
  }

  /** Python `str(i)` for any integer. */
  function IntToString(i: int): (r: string)
    ensures |r| > 0
  {
    if i < 0 then "-" + NatToString(-i) else NatToString(i)
  }

  /** Decimal conversion round trip for signed integers: `int(str(i)) == i`. */
  lemma ParseIntOfIntToString(i: int)
    ensures ParseInt(IntToString(i)) == Some(i)
  {
    if i >= 0 {
      ParseIntOfNatToString(i);
    } else {
      var d := NatToString(-i);
      DigitsValueOfNatToString(-i);
      ParseIntMinus(d, "-" + d);
    }
  }

  /** A minus sign followed by digits reads as the negated value. */
  lemma ParseIntMinus(d: string, s: string)
    requires |d| > 0 && IsDigit(d[|d| - 1]) && (forall i :: 0 <= i < |d| ==> IsDigit(d[i])) && s == "-" + d
    ensures ParseInt(s) == Some(0 - DigitsValue(d))
  {
    StripKeeps(s);
    assert s[0] == '-' && s[1..] == d;
    ParseSigned(s, d);
  }

  lemma ParseSigned(t: string, d: string)
    requires Strip(t) == t && t != [] && t[0] == '-' && t[1..] == d
    requires d != [] && forall i :: 0 <= i < |d| ==> IsDigit(d[i])
    ensures ParseInt(t) == Some(0 - DigitsValue(d))
  {
  }

  /** Text with no white space at either end is its own strip. */
  lemma StripKeeps(s: string)
    requires s != [] && !IsSpace(s[0]) && !IsSpace(s[|s| - 1])
    ensures Strip(s) == s
  {
    assert LStrip(s) == s;
  }
}
