/**
 * The few string operations the agents use, as Python defines them on
 * ASCII text: lower-casing, substring search, `str.split(sep)`,
 * `sep.join(parts)`, `str.strip(chars)`, slicing with `[:n]`,
 * `str.replace` of one character and `str.capitalize`, plus the decimal
 * rendering and parsing of integers.
 */
module Text {

  // ---------------------------------------------------------------------
  // Case

  function LowerChar(c: char): char {
    if 'A' <= c <= 'Z' then (c as int + 32) as char else c
  }

  function UpperChar(c: char): char {
    if 'a' <= c <= 'z' then (c as int - 32) as char else c
  }

  /** `s.lower()` on ASCII letters. */
  function Lower(s: string): (r: string)
    ensures |r| == |s|
  {
    seq(|s|, i requires 0 <= i < |s| => LowerChar(s[i]))
  }

  /** Lower-casing twice is lower-casing once. */
  lemma LowerIdempotent(s: string)
    ensures Lower(Lower(s)) == Lower(s)
  {
    forall i | 0 <= i < |s|
      ensures Lower(Lower(s))[i] == Lower(s)[i]
    {
      assert Lower(s)[i] == LowerChar(s[i]);
    }
  }

  /** `s.capitalize()`: first character upper-cased, the rest lower-cased. */
  function Capitalize(s: string): (r: string)
    ensures |r| == |s|
    ensures |s| > 0 ==> r[0] == UpperChar(s[0]) && r[1..] == Lower(s[1..])
  {
    if |s| == 0 then "" else [UpperChar(s[0])] + Lower(s[1..])
  }

  // ---------------------------------------------------------------------
  // Substrings

  /** `k` occurs in `s` starting at index `i`. */
  predicate OccursAt(s: string, k: string, i: int) {
    0 <= i && i + |k| <= |s| && s[i..i + |k|] == k
  }

  /** Python's `k in s` for strings. */
  predicate Contains(s: string, k: string) {
    exists i :: 0 <= i <= |s| && OccursAt(s, k, i)
  }

  lemma OccursShift(s: string, k: string)
    requires |s| > 0
    ensures forall j :: 1 <= j ==> (OccursAt(s, k, j) <==> OccursAt(s[1..], k, j - 1))
  {
    forall j | 1 <= j
      ensures OccursAt(s, k, j) <==> OccursAt(s[1..], k, j - 1)
    {
      if j + |k| <= |s| {
        var a, b := s[1..][j - 1..j - 1 + |k|], s[j..j + |k|];
        assert forall m :: 0 <= m < |k| ==> a[m] == b[m];
        assert a == b;
      }
    }
  }

  /** The index of the first occurrence of `sep` in `s`, or -1. */
  function Find(s: string, sep: string): (r: int)
    requires |sep| > 0
    ensures -1 <= r
    ensures r >= 0 ==> OccursAt(s, sep, r)
    ensures forall j :: 0 <= j < r ==> !OccursAt(s, sep, j)
    ensures r < 0 ==> forall j :: !OccursAt(s, sep, j)
    decreases |s|
  {
    if |s| < |sep| then -1
    else if s[..|sep|] == sep then 0
    else
      var r := Find(s[1..], sep);
      OccursShift(s, sep);
      if r < 0 then -1 else r + 1
  }

  lemma FindNone(s: string, sep: string)
    requires |sep| > 0
    ensures Find(s, sep) < 0 <==> !Contains(s, sep)
  {
  }

  // ---------------------------------------------------------------------
  // Split and join

  /** `s.split(sep)` for a non-empty separator: never an empty list. */
  function Split(s: string, sep: string): (parts: seq<string>)
    requires |sep| > 0
    ensures |parts| >= 1
    decreases |s|
  {
    var i := Find(s, sep);
    if i < 0 then [s] else [s[..i]] + Split(s[i + |sep|..], sep)
  }

  /** `sep.join(parts)`. */
  function Join(parts: seq<string>, sep: string): string {
    if |parts| == 0 then ""
    else if |parts| == 1 then parts[0]
    else parts[0] + sep + Join(parts[1..], sep)
  }

  /** Joining a head onto a non-empty list puts one separator after the head. */
  lemma JoinCons(head: string, tail: seq<string>, sep: string)
    requires |tail| >= 1
    ensures Join([head] + tail, sep) == head + sep + Join(tail, sep)
  {
    assert ([head] + tail)[1..] == tail;
  }

  /** A text is what precedes an occurrence, the occurrence, and what follows it. */
  lemma AroundOccurrence(s: string, k: string, i: int)
    requires OccursAt(s, k, i)
    ensures s == s[..i] + k + s[i + |k|..]
  {
    assert s == s[..i] + s[i..i + |k|] + s[i + |k|..];
  }

  /** Joining the pieces of a split with the same separator gives back the text. */
  lemma {:induction false} JoinSplit(s: string, sep: string)
    requires |sep| > 0
    ensures Join(Split(s, sep), sep) == s
    decreases |s|
  {
    var i := Find(s, sep);
    if i >= 0 {
      var rest := s[i + |sep|..];
      JoinSplit(rest, sep);
      JoinCons(s[..i], Split(rest, sep), sep);
      AroundOccurrence(s, sep, i);
    }
  }

  /** No piece of a split contains the separator. */
  lemma {:induction false} SplitPiecesFree(s: string, sep: string)
    requires |sep| > 0
    ensures forall k :: 0 <= k < |Split(s, sep)| ==> !Contains(Split(s, sep)[k], sep)
    decreases |s|
  {
    var i := Find(s, sep);
    if i < 0 {
      FindNone(s, sep);
    } else {
      var rest := s[i + |sep|..];
      SplitPiecesFree(rest, sep);
      var head := s[..i];
      forall j
        ensures !OccursAt(head, sep, j)
      {
        if OccursAt(head, sep, j) {
          assert OccursAt(s, sep, j);
        }
      }
      assert Split(s, sep) == [head] + Split(rest, sep);

    }
  }

  /** Searching for one character: the first index holding it, or -1 when it does not occur. */
  lemma FindChar(s: string, c: char)
    ensures var i := Find(s, [c]);
      (i < 0 <==> c !in s) && (i >= 0 ==> i < |s| && s[i] == c && c !in s[..i])
  {
    var i := Find(s, [c]);
    forall j | 0 <= j < |s|
      ensures OccursAt(s, [c], j) <==> s[j] == c
    {
      assert s[j..j + 1] == [s[j]];
    }
    if c in s {
      var j :| 0 <= j < |s| && s[j] == c;
      assert OccursAt(s, [c], j);
    }
    if i >= 0 {
      forall j | 0 <= j < i
        ensures s[..i][j] != c
      {
        assert !OccursAt(s, [c], j);
      }
    }
  }

  /** Every piece of a split occurs in the text. */
  lemma {:induction false} SplitPiecesOccur(s: string, sep: string, k: int)
    requires |sep| > 0 && 0 <= k < |Split(s, sep)|
    ensures Contains(s, Split(s, sep)[k])
    decreases |s|
  {
    var i := Find(s, sep);
    if i < 0 {
      assert OccursAt(s, s, 0);
    } else if k == 0 {
      assert OccursAt(s, s[..i], 0);
    } else {
      var rest := s[i + |sep|..];
      assert Split(s, sep)[k] == Split(rest, sep)[k - 1];
      SplitPiecesOccur(rest, sep, k - 1);
      assert OccursAt(s, rest, i + |sep|);
      ContainsTrans(s, rest, Split(rest, sep)[k - 1]);
    }
  }

  /** What occurs in a part of `s` occurs in `s`. */
  lemma ContainsTrans(s: string, t: string, k: string)
    requires Contains(s, t) && Contains(t, k)
    ensures Contains(s, k)
  {
    var p :| 0 <= p <= |s| && OccursAt(s, t, p);
    var q :| 0 <= q <= |t| && OccursAt(t, k, q);
    var u := s[p + q..p + q + |k|];
    forall m | 0 <= m < |k|
      ensures u[m] == k[m]
    {
      assert k[m] == t[q + m];
      assert t[q + m] == s[p + q + m];
    }
    assert u == k;
    assert OccursAt(s, k, p + q);
  }

  /** The first part of a join is its prefix. */
  lemma JoinHead(parts: seq<string>, sep: string)
    requires |parts| > 0
    ensures |parts[0]| <= |Join(parts, sep)| && Join(parts, sep)[..|parts[0]|] == parts[0]
  {
  }

  /** A text without the separator splits into itself alone. */
  lemma SplitFree(s: string, sep: string)
    requires |sep| > 0 && !Contains(s, sep)
    ensures Split(s, sep) == [s]
  {
    FindNone(s, sep);
  }

  /** Joining two non-empty lists is joining their joins. */
  lemma {:induction false} JoinAppend(a: seq<string>, b: seq<string>, sep: string)
    requires |a| > 0 && |b| > 0
    ensures Join(a + b, sep) == Join(a, sep) + sep + Join(b, sep)
    decreases |a|
  {
    if |a| == 1 {
      assert (a + b)[1..] == b;
    } else {
      JoinAppend(a[1..], b, sep);
      assert (a + b)[1..] == a[1..] + b;
    }
  }

  // ---------------------------------------------------------------------
  // Stripping

  /**
   * The ASCII characters `str.strip()` and `str.isspace()` treat as
   * whitespace: blank, tab, line feed, carriage return, vertical tab, form
   * feed and the four separators 0x1C to 0x1F.
   */
  const WHITESPACE: set<char> := {' ', '\t', '\n', '\r', '\U{0B}', '\U{0C}', '\U{1C}', '\U{1D}', '\U{1E}', '\U{1F}'}

  function TrimLeft(s: string, cs: set<char>): string
    decreases |s|
  {
    if |s| > 0 && s[0] in cs then TrimLeft(s[1..], cs) else s
  }

  function TrimRight(s: string, cs: set<char>): string
    decreases |s|
  {
    if |s| > 0 && s[|s| - 1] in cs then TrimRight(s[..|s| - 1], cs) else s
  }

  /** `s.strip(chars)`: leading and trailing characters of `cs` removed. */
  function StripChars(s: string, cs: set<char>): string {
    TrimRight(TrimLeft(s, cs), cs)
  }

  /** `s.strip()`. */
  function Strip(s: string): string {
    StripChars(s, WHITESPACE)
  }

  lemma {:induction false} TrimLeftSpec(s: string, cs: set<char>)
    ensures var r := TrimLeft(s, cs);
      |r| <= |s| && r == s[|s| - |r|..]
      && (forall k :: 0 <= k < |s| - |r| ==> s[k] in cs)
      && (|r| > 0 ==> r[0] !in cs)
    decreases |s|
  {
    if |s| > 0 && s[0] in cs {
      TrimLeftSpec(s[1..], cs);
    }
  }

  lemma {:induction false} TrimRightSpec(s: string, cs: set<char>)
    ensures var r := TrimRight(s, cs);
      |r| <= |s| && r == s[..|r|]
      && (forall k :: |r| <= k < |s| ==> s[k] in cs)
      && (|r| > 0 ==> r[|r| - 1] !in cs)
    decreases |s|
  {
    if |s| > 0 && s[|s| - 1] in cs {
      TrimRightSpec(s[..|s| - 1], cs);
    }
  }

  /**
   * What `strip` keeps: a contiguous slice of the text, everything cut on
   * either side belongs to `cs`, and the slice neither starts nor ends with
   * a character of `cs`.
   */
  lemma StripCharsSpec(s: string, cs: set<char>)
    ensures var r := StripChars(s, cs);
      exists i, j :: 0 <= i <= j <= |s| && r == s[i..j]
        && (forall k :: 0 <= k < i ==> s[k] in cs)
        && (forall k :: j <= k < |s| ==> s[k] in cs)
    ensures var r := StripChars(s, cs);
      |r| > 0 ==> r[0] !in cs && r[|r| - 1] !in cs
  {
    var l := TrimLeft(s, cs);
    TrimLeftSpec(s, cs);
    TrimRightSpec(l, cs);
    var r := TrimRight(l, cs);
    var i := |s| - |l|;
    var j := i + |r|;
    assert r == s[i..j];
    forall k | j <= k < |s|
      ensures s[k] in cs
    {
      assert s[k] == l[k - i];
    }
  }

  /** What `strip` keeps occurs in the text. */
  lemma StripCharsOccurs(s: string, cs: set<char>)
    ensures Contains(s, StripChars(s, cs))
  {
    StripCharsSpec(s, cs);
    var r := StripChars(s, cs);
    var i, j :| 0 <= i <= j <= |s| && r == s[i..j];
    assert OccursAt(s, r, i);
  }

  /** Stripping leaves nothing exactly when every character is one of `cs`. */
  lemma StripCharsEmpty(s: string, cs: set<char>)
    ensures StripChars(s, cs) == "" <==> forall k :: 0 <= k < |s| ==> s[k] in cs
  {
    StripCharsSpec(s, cs);
    TrimLeftSpec(s, cs);
  }

  // ---------------------------------------------------------------------
  // Slicing and replacing

  /** `s[:n]` for a non-negative `n`. */
  function Take<T>(s: seq<T>, n: nat): (r: seq<T>)
    ensures |r| == if n <= |s| then n else |s|
    ensures r == s[..|r|]
  {
    if n <= |s| then s[..n] else s
  }

  /** `s.replace(a, b)` for single characters. */
  function ReplaceChar(s: string, a: char, b: char): (r: string)
    ensures |r| == |s|
  {
    seq(|s|, i requires 0 <= i < |s| => if s[i] == a then b else s[i])
  }

  // ---------------------------------------------------------------------
  // Decimal integers

  predicate IsDigit(c: char) {
    '0' <= c <= '9'
  }

  function DigitChar(d: nat): char
    requires d < 10
  {
    ('0' as int + d) as char
  }

  /** The decimal digits of `n`, most significant first, without leading zeros. */
  function NatToString(n: nat): (r: string)
    ensures |r| > 0 && forall k :: 0 <= k < |r| ==> IsDigit(r[k])
    decreases n
  {
    if n < 10 then [DigitChar(n)] else NatToString(n / 10) + [DigitChar(n % 10)]
  }

  /** `str(n)` for an integer. */
  function IntToString(n: int): string {
    if n < 0 then "-" + NatToString(-n) else NatToString(n)
  }

  /** The value of a string of decimal digits. */
  function DigitsValue(s: string): nat
    requires forall k :: 0 <= k < |s| ==> IsDigit(s[k])
    decreases |s|
  {
    if |s| == 0 then 0
    else
      assert IsDigit(s[|s| - 1]);
      10 * DigitsValue(s[..|s| - 1]) + (s[|s| - 1] as int - '0' as int)
  }

  /** Reading back the decimal rendering of a number gives the number. */
  lemma {:induction false} DigitsValueOfNatToString(n: nat)
    ensures DigitsValue(NatToString(n)) == n
    decreases n
  {
    if n >= 10 {
      DigitsValueOfNatToString(n / 10);
      var s := NatToString(n);
      assert s[..|s| - 1] == NatToString(n / 10);
    }
  }
}
