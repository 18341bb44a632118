/**
 * Character strings as Python's `str` handles them: digits and `int()` of
 * digit strings, decimal and zero-padded formatting, `split`, `replace`,
 * substring tests, code-point lexicographic order and `sorted()` on strings,
 * and the small family of regular expressions the pipeline applies to file
 * names: a literal, a captured run of digits, then a short suffix pattern.
 */
module Text {
  import opened Wrappers

  // ----- digits and decimal notation -----

  predicate IsDigit(c: char) { '0' <= c <= '9' }

  predicate AllDigits(s: string) { forall i :: 0 <= i < |s| ==> IsDigit(s[i]) }

  function DigitValue(c: char): (v: nat)
    requires IsDigit(c)
    ensures v < 10
  {
    (c as int) - ('0' as int)
  }

  function DigitChar(d: nat): (c: char)
    requires d < 10
    ensures IsDigit(c) && DigitValue(c) == d
  {
    (('0' as int) + d) as char
  }

  /** Python's `int(s)` for a string of ASCII digits. */
  function DigitsValue(s: string): nat
    requires AllDigits(s)
    decreases |s|
  {
    if s == [] then 0 else DigitsValue(s[..|s| - 1]) * 10 + DigitValue(s[|s| - 1])
  }

  /** Python's `str(n)` for a natural number. */
  function Decimal(n: nat): (r: string)
    ensures |r| >= 1 && AllDigits(r)
    ensures (n < 10) == (|r| == 1)
    decreases n
  {
    if n < 10 then [DigitChar(n)] else Decimal(n / 10) + [DigitChar(n % 10)]
  }

  /** Reading back what `Decimal` wrote gives the number again. */
  lemma {:induction false} DecimalRoundTrip(n: nat)
    ensures DigitsValue(Decimal(n)) == n
    decreases n
  {
    if n >= 10 {
      var r := Decimal(n);
      assert r[..|r| - 1] == Decimal(n / 10);
      DecimalRoundTrip(n / 10);
    }
  }

  /** `str(i)` for any integer. */
  function IntToString(i: int): string
  {
    if i < 0 then "-" + Decimal(-i) else Decimal(i)
  }

  /** Python's `format(i, '02d')`: zero-padded to width two; the sign counts toward the width. */
  function Format02d(i: int): (r: string)
    ensures |r| >= 2
    ensures 0 <= i ==> AllDigits(r) && DigitsValue(r) == i
    ensures i < 0 ==> r[0] == '-'
  {
    DecimalRoundTrip(if i < 0 then -i else i);
    if 0 <= i < 10 then "0" + Decimal(i) else IntToString(i)
  }

  /** `strftime` zero padding of a field to `width` digits. */
  function ZeroPad(n: nat, width: nat): (r: string)
    ensures AllDigits(r) && DigitsValue(r) == n
    ensures |r| == if |Decimal(n)| >= width then |Decimal(n)| else width
    decreases width
  {
    DecimalRoundTrip(n);
    if |Decimal(n)| >= width then Decimal(n)
    else
      var r := ZeroPad(n, width - 1);
      LeadingZero(r);
      "0" + r
  }

  lemma {:induction false} LeadingZero(s: string)
    requires AllDigits(s)
    ensures AllDigits("0" + s) && DigitsValue("0" + s) == DigitsValue(s)
    decreases |s|
  {
    if s != [] {
      assert ("0" + s)[..|s|] == "0" + s[..|s| - 1];
      LeadingZero(s[..|s| - 1]);
    }
  }

  /** Python's `format(n, ',')` for an integer: groups of three digits separated by commas. */
  function Thousands(n: int): string
  {
    if n < 0 then "-" + Grouped(-n) else Grouped(n)
  }

  function Grouped(n: nat): (r: string)
    ensures |r| >= 1
    decreases n
  {
    if n < 1000 then Decimal(n) else Grouped(n / 1000) + "," + ZeroPad(n % 1000, 3)
  }

  /** The string with every comma removed. */
  function Uncomma(s: string): string
  {
    if s == [] then [] else (if s[0] == ',' then [] else [s[0]]) + Uncomma(s[1..])
  }

  lemma {:induction false} UncommaAppend(a: string, b: string)
    ensures Uncomma(a + b) == Uncomma(a) + Uncomma(b)
    decreases |a|
  {
    if a == [] {
      assert a + b == b;
    } else {
      assert (a + b)[1..] == a[1..] + b;
      UncommaAppend(a[1..], b);
    }
  }

  lemma {:induction false} UncommaDigits(s: string)
    requires AllDigits(s)
    ensures Uncomma(s) == s
    decreases |s|
  {
    if s != [] {
      UncommaDigits(s[1..]);
      assert s == [s[0]] + s[1..];
    }
  }

  /** Removing the separators from `format(n, ',')` gives back the plain digits of `n`. */
  lemma {:induction false} GroupedDigits(n: nat)
    ensures AllDigits(Uncomma(Grouped(n))) && DigitsValue(Uncomma(Grouped(n))) == n
    decreases n
  {
    if n < 1000 {
      UncommaDigits(Decimal(n));
      DecimalRoundTrip(n);
    } else {
      GroupedDigits(n / 1000);
      var u := Uncomma(Grouped(n / 1000));
      var lo := ZeroPad(n % 1000, 3);
      UncommaGroup(Grouped(n / 1000), lo);
      assert |lo| == 3 by { DecimalLength(n % 1000); }
      DigitsValueAppend(u, lo);
      ThousandsArith(n, DigitsValue(u), DigitsValue(lo));
    }
  }

  lemma {:induction false} UncommaGroup(hi: string, lo: string)
    requires AllDigits(lo)
    ensures Uncomma(hi + "," + lo) == Uncomma(hi) + lo
  {
    var tail := "," + lo;
    assert hi + "," + lo == hi + tail;
    UncommaAppend(hi, tail);
    assert tail[1..] == lo;
    UncommaDigits(lo);
    assert Uncomma(tail) == lo;
  }

  lemma ThousandsArith(n: nat, hi: nat, lo: nat)
    requires hi == n / 1000 && lo == n % 1000
    ensures hi * Pow10(3) + lo == n
  {
    assert Pow10(3) == 1000;
  }

  lemma {:induction false} DecimalLength(n: nat)
    requires n < 1000
    ensures |Decimal(n)| <= 3
  {
    if n >= 10 { DecimalLength(n / 10); }
  }

  function Pow10(k: nat): nat
  {
    if k == 0 then 1 else 10 * Pow10(k - 1)
  }

  lemma {:induction false} DigitsValueAppend(a: string, b: string)
    requires AllDigits(a) && AllDigits(b)
    ensures AllDigits(a + b)
    ensures DigitsValue(a + b) == DigitsValue(a) * Pow10(|b|) + DigitsValue(b)
    decreases |b|
  {
    if b != [] {
      var c := a + b;
      var b', d := b[..|b| - 1], b[|b| - 1];
      assert c[..|c| - 1] == a + b' && c[|c| - 1] == d;
      DigitsValueAppend(a, b');
      var x, p := DigitsValue(a), Pow10(|b'|);
      assert DigitsValue(c) == DigitsValue(a + b') * 10 + DigitValue(d);
      assert DigitsValue(b) == DigitsValue(b') * 10 + DigitValue(d);
      assert Pow10(|b|) == 10 * p;
      ShiftDigit(x, p, DigitsValue(b'), DigitValue(d));
    } else {
      assert a + b == a;
    }
  }

  lemma ShiftDigit(x: int, p: int, y: int, d: int)
    ensures (x * p + y) * 10 + d == x * (10 * p) + (y * 10 + d)
  {
  }

  // ----- substrings, prefixes, replace, split -----

  predicate StartsWith(s: string, p: string) { |p| <= |s| && s[..|p|] == p }

  predicate EndsWith(s: string, p: string) { |p| <= |s| && s[|s| - |p|..] == p }

  /** Python's `p in s` for two strings. */
  predicate IsSubstring(p: string, s: string)
  {
    exists i :: 0 <= i <= |s| - |p| && OccursAt(p, s, i)
  }

  predicate OccursAt(p: string, s: string, i: int)
    requires 0 <= i <= |s| - |p|
  {
    s[i..i + |p|] == p
  }

  /** Python's `s.replace(pat, '')`: every non-overlapping occurrence, scanning left to right, removed. */
  function RemoveAll(s: string, pat: string): (r: string)
    requires pat != []
    ensures |r| <= |s|
    decreases |s|
  {
    if |s| < |pat| then s
    else if s[..|pat|] == pat then RemoveAll(s[|pat|..], pat)
    else [s[0]] + RemoveAll(s[1..], pat)
  }

  /** The first index of `c` in `s`. */
  function IndexOf(s: string, c: char): (i: nat)
    requires c in s
    ensures i < |s| && s[i] == c && c !in s[..i]
  {
    if s[0] == c then 0 else 1 + IndexOf(s[1..], c)
  }

  /** Python's `s.split(sep)` for a one-character separator. */
  function Split(s: string, sep: char): (parts: seq<string>)
    ensures |parts| >= 1
    ensures forall k :: 0 <= k < |parts| ==> sep !in parts[k]
    decreases |s|
  {
    if sep !in s then [s]
    else
      var i := IndexOf(s, sep);
      [s[..i]] + Split(s[i + 1..], sep)
  }

  /** Python's `sep.join(parts)`. */
  function Join(parts: seq<string>, sep: string): string
  {
    if parts == [] then ""
    else if |parts| == 1 then parts[0]
    else parts[0] + sep + Join(parts[1..], sep)
  }

  /** Splitting and joining again with the same separator gives back the string. */
  lemma {:induction false} SplitJoin(s: string, sep: char)
    ensures Join(Split(s, sep), [sep]) == s
    decreases |s|
  {
    if sep in s {
      var i := IndexOf(s, sep);
      var a, rest := s[..i], s[i + 1..];
      var ps := Split(rest, sep);
      SplitJoin(rest, sep);
      JoinCons(a, ps, [sep]);
      assert s == a + [sep] + rest;
      calc {
        Join(Split(s, sep), [sep]);
        Join([a] + ps, [sep]);
        a + [sep] + Join(ps, [sep]);
      }
    }
  }

  lemma JoinCons(a: string, ps: seq<string>, sep: string)
    requires |ps| >= 1
    ensures Join([a] + ps, sep) == a + sep + Join(ps, sep)
  {
    var all := [a] + ps;
    assert all[0] == a && all[1..] == ps;
  }

  lemma SplitFirst(a: string, sep: char, rest: string)
    requires sep !in a
    ensures Split(a + [sep] + rest, sep) == [a] + Split(rest, sep)
  {
    var s := a + [sep] + rest;
    assert s[|a|] == sep;
    assert s[..|a|] == a;
    assert IndexOf(s, sep) == |a|;
    assert s[|a| + 1..] == rest;
  }

  /** Joining parts that do not contain the separator and splitting again gives back the parts. */
  lemma {:induction false} JoinSplit(parts: seq<string>, sep: char)
    requires |parts| >= 1 && forall k :: 0 <= k < |parts| ==> sep !in parts[k]
    ensures Split(Join(parts, [sep]), sep) == parts
    decreases |parts|
  {
    if |parts| > 1 {
      var rest := Join(parts[1..], [sep]);
      JoinCons(parts[0], parts[1..], [sep]);
      assert parts == [parts[0]] + parts[1..];
      JoinSplit(parts[1..], sep);
      SplitFirst(parts[0], sep, rest);
    }
  }

  // ----- code-point lexicographic order, as Python compares strings -----

  predicate StrLe(a: string, b: string)
    decreases |a|
  {
    |a| == 0 || (|b| > 0 && (a[0] < b[0] || (a[0] == b[0] && StrLe(a[1..], b[1..]))))
  }

  lemma {:induction false} StrLeRefl(a: string)
    ensures StrLe(a, a)
    decreases |a|
  {
    if |a| > 0 { StrLeRefl(a[1..]); }
  }

  lemma {:induction false} StrLeTotal(a: string, b: string)
    ensures StrLe(a, b) || StrLe(b, a)
    decreases |a|
  {
    if |a| > 0 && |b| > 0 && a[0] == b[0] { StrLeTotal(a[1..], b[1..]); }
  }

  lemma {:induction false} StrLeAntisym(a: string, b: string)
    requires StrLe(a, b) && StrLe(b, a)
    ensures a == b
    decreases |a|
  {
    if |a| > 0 {
      StrLeAntisym(a[1..], b[1..]);
      assert a == [a[0]] + a[1..] && b == [b[0]] + b[1..];
    }
  }

  lemma {:induction false} StrLeTrans(a: string, b: string, c: string)
    requires StrLe(a, b) && StrLe(b, c)
    ensures StrLe(a, c)
    decreases |a|
  {
    if |a| > 0 && a[0] == b[0] && b[0] == c[0] { StrLeTrans(a[1..], b[1..], c[1..]); }
  }

  /** A common prefix does not decide the order. */
  lemma {:induction false} StrLeSamePrefix(a: string, x: string, y: string)
    ensures StrLe(a + x, a + y) <==> StrLe(x, y)
    decreases |a|
  {
    if a != [] {
      assert (a + x)[1..] == a[1..] + x && (a + y)[1..] == a[1..] + y;
      StrLeSamePrefix(a[1..], x, y);
    } else {
      assert a + x == x && a + y == y;
    }
  }

  /** Two different prefixes of the same length decide the order by themselves. */
  lemma {:induction false} StrLeDifferentPrefix(a: string, b: string, x: string, y: string)
    requires |a| == |b| && a != b
    ensures StrLe(a + x, b + y) <==> StrLe(a, b)
    decreases |a|
  {
    assert (a + x)[0] == a[0] && (b + y)[0] == b[0];
    if a[0] == b[0] {
      assert a[1..] != b[1..] by {
        assert a == [a[0]] + a[1..] && b == [b[0]] + b[1..];
      }
      assert (a + x)[1..] == a[1..] + x && (b + y)[1..] == b[1..] + y;
      StrLeDifferentPrefix(a[1..], b[1..], x, y);
    }
  }

  lemma {:induction false} DigitsBound(s: string)
    requires AllDigits(s)
    ensures DigitsValue(s) < Pow10(|s|)
    decreases |s|
  {
    if s != [] {
      DigitsBound(s[..|s| - 1]);
    }
  }

  lemma DigitsFirst(s: string)
    requires AllDigits(s) && s != []
    ensures DigitsValue(s) == DigitValue(s[0]) * Pow10(|s| - 1) + DigitsValue(s[1..])
  {
    assert s == [s[0]] + s[1..];
    DigitsValueAppend([s[0]], s[1..]);
    assert DigitsValue([s[0]]) == DigitValue(s[0]) by {
      assert [s[0]][..0] == [];
    }
  }

  lemma LeadingDigit(da: nat, db: nat, ra: nat, rb: nat, p: nat)
    requires da < db && ra < p && rb < p
    ensures da * p + ra < db * p + rb
  {
    assert (da + 1) * p == da * p + p;
    assert (da + 1) * p <= db * p;
  }

  /** Between digit strings of one length, string order is numeric order. */
  lemma {:induction false} DigitsOrder(a: string, b: string)
    requires |a| == |b| && AllDigits(a) && AllDigits(b)
    ensures StrLe(a, b) <==> DigitsValue(a) <= DigitsValue(b)
    decreases |a|
  {
    if a != [] {
      var p := Pow10(|a| - 1);
      DigitsFirst(a);
      DigitsFirst(b);
      DigitsBound(a[1..]);
      DigitsBound(b[1..]);
      var da, db := DigitValue(a[0]), DigitValue(b[0]);
      if a[0] < b[0] {
        LeadingDigit(da, db, DigitsValue(a[1..]), DigitsValue(b[1..]), p);
      } else if b[0] < a[0] {
        LeadingDigit(db, da, DigitsValue(b[1..]), DigitsValue(a[1..]), p);
      } else {
        DigitsOrder(a[1..], b[1..]);
      }
    }
  }

  predicate StrSorted(s: seq<string>)
  {
    forall i, j :: 0 <= i < j < |s| ==> StrLe(s[i], s[j])
  }

  function InsertStr(x: string, s: seq<string>): (r: seq<string>)
    ensures multiset(r) == multiset(s) + multiset{x}
    ensures |r| == |s| + 1
  {
    if s == [] then [x]
    else if StrLe(x, s[0]) then [x] + s
    else
      assert s == [s[0]] + s[1..];
      [s[0]] + InsertStr(x, s[1..])
  }

  /** Python's `sorted()` on a list of strings. */
  function SortStrings(s: seq<string>): (r: seq<string>)
    ensures multiset(r) == multiset(s)
    ensures |r| == |s|
  {
    if s == [] then []
    else
      assert s == [s[0]] + s[1..];
      InsertStr(s[0], SortStrings(s[1..]))
  }

  /** A lower bound of `x` and of every element of `s` bounds every element after the insertion. */
  lemma {:induction false} InsertStrLowerBound(x: string, s: seq<string>, y: string)
    requires StrLe(y, x) && forall i :: 0 <= i < |s| ==> StrLe(y, s[i])
    ensures forall i :: 0 <= i < |InsertStr(x, s)| ==> StrLe(y, InsertStr(x, s)[i])
    decreases |s|
  {
    if s != [] && !StrLe(x, s[0]) {
      InsertStrLowerBound(x, s[1..], y);
    }
  }

  lemma {:induction false} InsertStrSorted(x: string, s: seq<string>)
    requires StrSorted(s)
    ensures StrSorted(InsertStr(x, s))
    decreases |s|
  {
    if s != [] && !StrLe(x, s[0]) {
      InsertStrSorted(x, s[1..]);
      StrLeTotal(x, s[0]);
      InsertStrLowerBound(x, s[1..], s[0]);
    } else if s != [] {
      forall j | 0 < j < |s| ensures StrLe(x, s[j]) { StrLeTrans(x, s[0], s[j]); }
    }
  }

  /** `sorted()` on strings yields an ascending permutation of its input. */
  lemma {:induction false} SortStringsSorted(s: seq<string>)
    ensures StrSorted(SortStrings(s))
    decreases |s|
  {
    if s != [] {
      SortStringsSorted(s[1..]);
      InsertStrSorted(s[0], SortStrings(s[1..]));
    }
  }

  // ----- the file-name regular expressions: LIT (\d+) SUFFIX -----

  /** One position of the suffix: a literal character or `.` (anything but a newline). */
  datatype PatChar = Lit(c: char) | AnyChar

  predicate PatAt(s: string, i: nat, p: seq<PatChar>)
  {
    i + |p| <= |s| &&
    forall k :: 0 <= k < |p| ==> (if p[k].Lit? then s[i + k] == p[k].c else s[i + k] != '\n')
  }

  /** The number of consecutive digits of `s` from index `i`. */
  function DigitRun(s: string, i: nat): (n: nat)
    ensures i + n <= |s| || (i > |s| && n == 0)
    ensures i <= |s| ==> AllDigits(s[i..i + n])
    ensures i + n < |s| ==> !IsDigit(s[i + n])
    decreases |s| - i
  {
    if i < |s| && IsDigit(s[i]) then
      var n := 1 + DigitRun(s, i + 1);
      assert s[i..i + n] == [s[i]] + s[i + 1..i + n];
      n
    else 0
  }

  /**
   * The greedy `\d+` followed by the suffix, backing off one digit at a time
   * as the regular-expression engine does; the value of the captured digits.
   */
  function TryLengths(s: string, start: nat, k: nat, suffix: seq<PatChar>): (r: Option<nat>)
    requires start + k <= |s| && AllDigits(s[start..start + k])
    decreases k
  {
    if k == 0 then None
    else if PatAt(s, start + k, suffix) then Some(DigitsValue(s[start..start + k]))
    else
      assert s[start..start + (k - 1)] == s[start..start + k][..k - 1];
      TryLengths(s, start, k - 1, suffix)
  }

  /** The pattern tried at one position. */
  function MatchAt(s: string, i: nat, lit: string, suffix: seq<PatChar>): Option<nat>
  {
    if i + |lit| <= |s| && s[i..i + |lit|] == lit then
      TryLengths(s, i + |lit|, DigitRun(s, i + |lit|), suffix)
    else None
  }

  function SearchFrom(s: string, i: nat, lit: string, suffix: seq<PatChar>): Option<nat>
    decreases |s| + 1 - i
  {
    if i > |s| then None
    else if MatchAt(s, i, lit, suffix).Some? then MatchAt(s, i, lit, suffix)
    else SearchFrom(s, i + 1, lit, suffix)
  }

  /** `re.search(LIT + r'(\d+)' + SUFFIX, s)` and the integer value of the captured group. */
  function SearchDigits(s: string, lit: string, suffix: seq<PatChar>): Option<nat>
  {
    SearchFrom(s, 0, lit, suffix)
  }

  /** `re.match(...)`: the pattern anchored at the start of the string. */
  function MatchDigits(s: string, lit: string, suffix: seq<PatChar>): Option<nat>
  {
    MatchAt(s, 0, lit, suffix)
  }

  /** The suffix pattern for a literal string. */
  function Literal(t: string): (p: seq<PatChar>)
    ensures |p| == |t| && forall k :: 0 <= k < |t| ==> p[k] == Lit(t[k])
  {
    seq(|t|, k requires 0 <= k < |t| => Lit(t[k]))
  }

  /** A position where the literal does not start contributes no match. */
  lemma SearchSkip(s: string, i: nat, lit: string, suffix: seq<PatChar>)
    requires i < |s| && !(i + |lit| <= |s| && s[i..i + |lit|] == lit)
    ensures SearchFrom(s, i, lit, suffix) == SearchFrom(s, i + 1, lit, suffix)
  {
  }

  /**
   * When the literal is followed by digits and then by text matching the
   * suffix whose first character is not a digit, the match at that position
   * captures exactly those digits.
   */
  lemma {:induction false} MatchAtDigits(s: string, i: nat, lit: string, digits: string, suffix: seq<PatChar>)
    requires digits != [] && AllDigits(digits)
    requires i + |lit| + |digits| <= |s|
    requires s[i..i + |lit|] == lit && s[i + |lit|..i + |lit| + |digits|] == digits
    requires PatAt(s, i + |lit| + |digits|, suffix) && |suffix| > 0
    requires !IsDigit(s[i + |lit| + |digits|])
    ensures MatchAt(s, i, lit, suffix) == Some(DigitsValue(digits))
  {
    var start := i + |lit|;
    DigitRunExact(s, start, |digits|);
    assert TryLengths(s, start, |digits|, suffix) == Some(DigitsValue(digits));
  }

  lemma {:induction false} DigitRunExact(s: string, start: nat, m: nat)
    requires start + m < |s| && AllDigits(s[start..start + m]) && !IsDigit(s[start + m])
    ensures DigitRun(s, start) == m
    decreases m
  {
    if m > 0 {
      assert IsDigit(s[start..start + m][0]);
      assert s[start + 1..start + m] == s[start..start + m][1..];
      DigitRunExact(s, start + 1, m - 1);
    }
  }
}
