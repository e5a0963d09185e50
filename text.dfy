/**
 * The operations of Python's `str` that the backend relies on: substring search (`in`,
 * `find`, `split(sep, 1)`), `strip`, one-character `split` and `join`, `str(int)`,
 * ASCII `lower`/`upper`, and the code-point ordering `sorted` uses.
 */
module Text {
  import opened Wrappers

  /** The characters for which Python's `str.isspace()` holds: what `strip()` removes. */
  const Whitespace: set<char> := {
    ' ', '\t', '\n', '\r', '\U{0B}', '\U{0C}', '\U{1C}', '\U{1D}', '\U{1E}', '\U{1F}',
    '\U{85}', '\U{A0}', '\U{1680}', '\U{2000}', '\U{2001}', '\U{2002}', '\U{2003}',
    '\U{2004}', '\U{2005}', '\U{2006}', '\U{2007}', '\U{2008}', '\U{2009}', '\U{200A}',
    '\U{2028}', '\U{2029}', '\U{202F}', '\U{205F}', '\U{3000}'
  }

  // ---------------------------------------------------------------- substrings

  /** `sub` occurs in `s` starting at index `i`. */
  predicate OccursAt(s: string, sub: string, i: int) {
    0 <= i && i + |sub| <= |s| && s[i..i + |sub|] == sub
  }

  lemma OccursShift(s: string, sub: string)
    requires |s| > 0
    ensures forall j :: 1 <= j ==> (OccursAt(s, sub, j) <==> OccursAt(s[1..], sub, j - 1))
  {
    forall j | 1 <= j
      ensures OccursAt(s, sub, j) <==> OccursAt(s[1..], sub, j - 1)
    {
      if j + |sub| <= |s| {
        assert s[1..][j - 1..j - 1 + |sub|] == s[j..j + |sub|];
      }
    }
  }

  /** `s.find(sub)`: the first index at which `sub` occurs in `s`, if there is one. */
  function IndexOf(s: string, sub: string): (r: Option<nat>)
    ensures r.Some? ==> OccursAt(s, sub, r.value)
    ensures r.Some? ==> forall j :: 0 <= j < r.value ==> !OccursAt(s, sub, j)
    ensures r.None? ==> forall j :: !OccursAt(s, sub, j)
    decreases |s|
  {
    if sub <= s then Some(0)
    else if |s| == 0 then None
    else
      OccursShift(s, sub);
      match IndexOf(s[1..], sub)
      case Some(k) => Some(k + 1)
      case None => None
  }

  /** Python's `sub in s`. */
  predicate Contains(s: string, sub: string) {
    IndexOf(s, sub).Some?
  }

  /** A `sub` found inside a `mid` that is itself inside `s` is inside `s`. */
  lemma ContainsTransitive(s: string, mid: string, sub: string)
    requires Contains(s, mid) && Contains(mid, sub)
    ensures Contains(s, sub)
  {
    var i := IndexOf(s, mid).value;
    var j := IndexOf(mid, sub).value;
    SliceOfSlice(s, i, i + |mid|, j, j + |sub|);
    OccursContains(s, sub, i + j);
  }

  /** The middle piece of a concatenation is the slice it occupies. */
  lemma MiddleOf(a: string, b: string, c: string)
    ensures (a + b + c)[|a|..|a| + |b|] == b
  {
    assert forall k :: 0 <= k < |b| ==> (a + b + c)[|a| + k] == b[k];
  }

  /** A slice of a slice is a slice of the whole. */
  lemma SliceOfSlice(s: string, a: nat, b: nat, c: nat, d: nat)
    requires a <= b <= |s| && c <= d <= b - a
    ensures s[a..b][c..d] == s[a + c..a + d]
  {
    assert forall k :: 0 <= k < d - c ==> s[a..b][c..d][k] == s[a..b][c + k] == s[a + c + k];
  }

  /** A string in which `sub` occurs somewhere contains it. */
  lemma OccursContains(s: string, sub: string, i: int)
    requires OccursAt(s, sub, i)
    ensures Contains(s, sub)
  {
    var r := IndexOf(s, sub);
    assert r.Some? || !OccursAt(s, sub, i);
  }

  /** `sub` is found right after a prefix that does not hold its first character. */
  lemma {:induction false} IndexAfterFree(a: string, b: string, sub: string)
    requires |sub| > 0 && sub[0] !in a && sub <= b
    ensures IndexOf(a + b, sub) == Some(|a|)
    decreases |a|
  {
    if |a| == 0 {
      assert a + b == b;
    } else {
      assert (a + b)[0] == a[0] != sub[0];
      assert (a + b)[1..] == a[1..] + b;
      IndexAfterFree(a[1..], b, sub);
    }
  }

  /** `s.split(sep, 1)[1]`: whatever follows the first occurrence of `sep`. */
  function AfterFirst(s: string, sep: string): string
    requires Contains(s, sep)
  {
    s[IndexOf(s, sep).value + |sep|..]
  }

  // ---------------------------------------------------------------- strip

  /** The length of the longest prefix of `s` made of `chars`. */
  function LeadingRun(s: string, chars: set<char>): (n: nat)
    ensures n <= |s|
    ensures forall i :: 0 <= i < n ==> s[i] in chars
    ensures n < |s| ==> s[n] !in chars
    decreases |s|
  {
    if |s| > 0 && s[0] in chars then 1 + LeadingRun(s[1..], chars) else 0
  }

  /** The length of the longest suffix of `s` made of `chars`. */
  function TrailingRun(s: string, chars: set<char>): (n: nat)
    ensures n <= |s|
    ensures forall i :: |s| - n <= i < |s| ==> s[i] in chars
    ensures n < |s| ==> s[|s| - 1 - n] !in chars
    decreases |s|
  {
    if |s| > 0 && s[|s| - 1] in chars then 1 + TrailingRun(s[..|s| - 1], chars) else 0
  }

  /**
   * Python's `s.strip(chars)`: `s` without its leading and trailing characters from
   * `chars`. The result is the piece of `s` left between two runs of `chars`; it is
   * empty exactly when every character of `s` is in `chars`, and otherwise neither
   * starts nor ends with one of them.
   */
  function Strip(s: string, chars: set<char>): (r: string)
    ensures exists lo :: OccursAt(s, r, lo)
                      && (forall i :: 0 <= i < lo ==> s[i] in chars)
                      && (forall i :: lo + |r| <= i < |s| ==> s[i] in chars)
    ensures r == [] <==> forall i :: 0 <= i < |s| ==> s[i] in chars
    ensures r != [] ==> r[0] !in chars && r[|r| - 1] !in chars
  {
    var lo := LeadingRun(s, chars);
    var rest := s[lo..];
    var r := rest[..|rest| - TrailingRun(rest, chars)];
    assert s[lo..lo + |r|] == r;
    assert OccursAt(s, r, lo);
    r
  }

  /** Python's `s.strip()` with no argument. */
  function StripSpace(s: string): string {
    Strip(s, Whitespace)
  }

  // ---------------------------------------------------------------- split and join

  /** The number of occurrences of `c` in `s`. */
  function Count(s: string, c: char): nat {
    if |s| == 0 then 0 else (if s[0] == c then 1 else 0) + Count(s[1..], c)
  }

  /**
   * `s.split(sep)` for a one-character separator: one more piece than there are
   * separators in `s`, none of them holding the separator.
   */
  function Split(s: string, sep: char): (parts: seq<string>)
    ensures |parts| == Count(s, sep) + 1
    ensures forall i :: 0 <= i < |parts| ==> sep !in parts[i]
    decreases |s|
  {
    if |s| == 0 then [""]
    else
      var tail := Split(s[1..], sep);
      if s[0] == sep then [""] + tail
      else [[s[0]] + tail[0]] + tail[1..]
  }

  /** `sep.join(parts)`. */
  function Join(parts: seq<string>, sep: char): string
    requires |parts| >= 1
  {
    if |parts| == 1 then parts[0] else parts[0] + [sep] + Join(parts[1..], sep)
  }

  /** Joining the pieces of a split gives back the string. */
  lemma {:induction false} JoinSplit(s: string, sep: char)
    ensures Join(Split(s, sep), sep) == s
    decreases |s|
  {
    if |s| > 0 {
      var tail := Split(s[1..], sep);
      JoinSplit(s[1..], sep);
      if s[0] == sep {
        assert Split(s, sep)[1..] == tail;
      } else {
        var parts := Split(s, sep);
        if |tail| == 1 {
          assert parts == [[s[0]] + tail[0]];
        } else {
          assert parts[1..] == tail[1..];
          assert Join(tail, sep) == tail[0] + [sep] + Join(tail[1..], sep);
        }
      }
    }
  }

  lemma {:induction false} SplitWithout(a: string, sep: char)
    requires sep !in a
    ensures Split(a, sep) == [a]
    decreases |a|
  {
    if |a| > 0 {
      SplitWithout(a[1..], sep);
      assert [a[0]] + a[1..] == a;
    }
  }

  lemma {:induction false} SplitAfter(a: string, b: string, sep: char)
    requires sep !in a
    ensures Split(a + [sep] + b, sep) == [a] + Split(b, sep)
    decreases |a|
  {
    var s := a + [sep] + b;
    if |a| == 0 {
      assert s[1..] == b;
    } else {
      assert s[1..] == a[1..] + [sep] + b;
      SplitAfter(a[1..], b, sep);
      assert [a[0]] + a[1..] == a;
    }
  }

  /** Splitting a join of separator-free pieces gives back the pieces. */
  lemma {:induction false} SplitJoin(parts: seq<string>, sep: char)
    requires |parts| >= 1
    requires forall i :: 0 <= i < |parts| ==> sep !in parts[i]
    ensures Split(Join(parts, sep), sep) == parts
    decreases |parts|
  {
    if |parts| == 1 {
      SplitWithout(parts[0], sep);
    } else {
      SplitJoin(parts[1..], sep);
      SplitAfter(parts[0], Join(parts[1..], sep), sep);
      assert [parts[0]] + parts[1..] == parts;
    }
  }

  // ---------------------------------------------------------------- str(int)

  predicate IsDigit(c: char) {
    '0' <= c <= '9'
  }

  function DigitChar(d: nat): char
    requires d < 10
  {
    ('0' as int + d) as char
  }

  /** Python's `str(n)` for a natural number: its decimal digits, without leading zeros. */
  function Decimal(n: nat): (r: string)
    ensures |r| >= 1 && forall i :: 0 <= i < |r| ==> IsDigit(r[i])
  {
    if n < 10 then [DigitChar(n)] else Decimal(n / 10) + [DigitChar(n % 10)]
  }

  /** The number a string of decimal digits stands for (Python's `int(s)`). */
  function DecimalValue(s: string): nat
    requires forall i :: 0 <= i < |s| ==> IsDigit(s[i])
  {
    if |s| == 0 then 0
    else
      assert IsDigit(s[|s| - 1]);
      DecimalValue(s[..|s| - 1]) * 10 + (s[|s| - 1] as int - '0' as int) as nat
  }

  /** `int(str(n)) == n`. */
  lemma {:induction false} DecimalRoundTrip(n: nat)
    ensures DecimalValue(Decimal(n)) == n
  {
    if n >= 10 {
      var s := Decimal(n);
      assert s[..|s| - 1] == Decimal(n / 10);
      DecimalRoundTrip(n / 10);
    }
  }

  /** Distinct numbers are written differently. */
  lemma DecimalInjective(m: nat, n: nat)
    requires Decimal(m) == Decimal(n)
    ensures m == n
  {
    DecimalRoundTrip(m);
    DecimalRoundTrip(n);
  }

  // ---------------------------------------------------------------- case

  function LowerChar(c: char): char {
    if 'A' <= c <= 'Z' then (c as int + 32) as char else c
  }

  function UpperChar(c: char): char {
    if 'a' <= c <= 'z' then (c as int - 32) as char else c
  }

  /** `s.lower()` on the ASCII letters. */
  function Lower(s: string): string {
    seq(|s|, i requires 0 <= i < |s| => LowerChar(s[i]))
  }

  /** `s.upper()` on the ASCII letters. */
  function Upper(s: string): string {
    seq(|s|, i requires 0 <= i < |s| => UpperChar(s[i]))
  }

  // ---------------------------------------------------------------- ordering

  /** Python's `a <= b` on strings: code-point lexicographic order. */
  predicate LexLessEq(a: string, b: string)
    decreases |a|
  {
    |a| == 0 || (|b| > 0 && (a[0] < b[0] || (a[0] == b[0] && LexLessEq(a[1..], b[1..]))))
  }

  lemma {:induction false} LexTotal(a: string, b: string)
    ensures LexLessEq(a, b) || LexLessEq(b, a)
    decreases |a|
  {
    if |a| > 0 && |b| > 0 && a[0] == b[0] {
      LexTotal(a[1..], b[1..]);
    }
  }

  lemma {:induction false} LexTransitive(a: string, b: string, c: string)
    requires LexLessEq(a, b) && LexLessEq(b, c)
    ensures LexLessEq(a, c)
    decreases |a|
  {
    if |a| > 0 && a[0] == b[0] && b[0] == c[0] {
      LexTransitive(a[1..], b[1..], c[1..]);
    }
  }

  lemma {:induction false} LexAntisymmetric(a: string, b: string)
    requires LexLessEq(a, b) && LexLessEq(b, a)
    ensures a == b
    decreases |a|
  {
    if |a| > 0 {
      LexAntisymmetric(a[1..], b[1..]);
      assert a == [a[0]] + a[1..] && b == [b[0]] + b[1..];
    }
  }

  predicate SortedLex(s: seq<string>) {
    forall i, j :: 0 <= i < j < |s| ==> LexLessEq(s[i], s[j])
  }

  /** Inserting into a sorted sequence keeps it sorted and adds exactly `x`. */
  function InsertLex(s: seq<string>, x: string): (r: seq<string>)
    requires SortedLex(s)
    ensures SortedLex(r)
    ensures multiset(r) == multiset(s) + multiset{x}
  {
    if |s| == 0 then [x]
    else if LexLessEq(x, s[0]) then
      LexBelowAll(s, x);
      [x] + s
    else
      var rest := InsertLex(s[1..], x);
      LexTotal(x, s[0]);
      assert s == [s[0]] + s[1..];
      LexAboveAll(s, rest, x);
      [s[0]] + rest
  }

  lemma LexBelowAll(s: seq<string>, x: string)
    requires SortedLex(s) && |s| > 0 && LexLessEq(x, s[0])
    ensures SortedLex([x] + s)
  {
    forall j | 0 < j < |s| ensures LexLessEq(x, s[j]) {
      LexTransitive(x, s[0], s[j]);
    }
  }

  lemma LexAboveAll(s: seq<string>, rest: seq<string>, x: string)
    requires SortedLex(s) && |s| > 0 && LexLessEq(s[0], x) && SortedLex(rest)
    requires multiset(rest) == multiset(s[1..]) + multiset{x}
    ensures SortedLex([s[0]] + rest)
  {
    forall j | 0 <= j < |rest| ensures LexLessEq(s[0], rest[j]) {
      assert rest[j] in multiset(rest);
      if rest[j] != x {
        assert rest[j] in multiset(s[1..]);
        var k :| 0 <= k < |s[1..]| && s[1..][k] == rest[j];
        assert s[k + 1] == rest[j];
      }
    }
  }

  /** Python's `sorted(names)`: every name once, in ascending order. */
  method SortStrings(names: set<string>) returns (out: seq<string>)
    ensures SortedLex(out)
    ensures |out| == |names|
    ensures forall x :: x in out <==> x in names
  {
    out := [];
    var rest := names;
    while rest != {}
      invariant rest <= names
      invariant SortedLex(out)
      invariant multiset(out) == multiset(names - rest)
      decreases |rest|
    {
      var n :| n in rest;
      assert names - (rest - {n}) == (names - rest) + {n};
      out := InsertLex(out, n);
      rest := rest - {n};
    }
    assert names - rest == names;
    assert |multiset(out)| == |out| && |multiset(names)| == |names|;
    forall x ensures x in out <==> x in names {
      assert x in out <==> x in multiset(out);
    }
  }
}
