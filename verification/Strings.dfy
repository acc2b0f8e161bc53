/** The string operations of Python and JavaScript the program relies on:
    prefix and suffix tests, substring search, `str.split`, decimal
    formatting and parsing, code-point ordering and UTF-8 length. */
module Strings {
  import opened Wrappers

  /** `s.startswith(p)` / `s.startsWith(p)`. */
  predicate StartsWith(s: string, p: string) {
    |p| <= |s| && s[..|p|] == p
  }

  /** `s.endswith(p)`. */
  predicate EndsWith(s: string, p: string) {
    |p| <= |s| && s[|s| - |p|..] == p
  }

  /** Python's `t in s` on two strings: `t` occurs contiguously in `s`. */
  predicate Contains(s: string, t: string) {
    exists i | 0 <= i <= |s| - |t| :: OccursAt(s, t, i)
  }

  /** `t` occupies `s` from position `i` on. */
  predicate OccursAt(s: string, t: string, i: int)
    requires 0 <= i <= |s| - |t|
  {
    s[i..i + |t|] == t
  }

  lemma ContainsAt(s: string, t: string, i: int)
    requires 0 <= i <= |s| - |t| && s[i..i + |t|] == t
    ensures Contains(s, t)
  {
    assert OccursAt(s, t, i);
  }

  /** A string holding a character that `s` lacks does not occur in `s`. */
  lemma MissingCharNotContained(s: string, t: string, k: int)
    requires 0 <= k < |t| && t[k] !in s
    ensures !Contains(s, t)
  {
    forall i | 0 <= i <= |s| - |t|
      ensures !OccursAt(s, t, i)
    {
      assert s[i..i + |t|][k] == s[i + k];
    }
  }

  /** When `t[k]` occurs in `s` only at position `j`, the one placement of
      `t` that could match is the one putting `t[k]` at `j`. */
  lemma AnchoredNotContained(s: string, t: string, k: int, j: int)
    requires 0 <= k < |t| && 0 <= j < |s|
    requires t[k] !in s[..j] && t[k] !in s[j + 1..]
    requires j < k || j - k + |t| > |s| || s[j - k..j - k + |t|] != t
    ensures !Contains(s, t)
  {
    forall i | 0 <= i <= |s| - |t|
      ensures !OccursAt(s, t, i)
    {
      assert s[i..i + |t|][k] == s[i + k];
      if i + k < j {
        assert s[..j][i + k] == s[i + k];
      } else if i + k > j {
        assert s[j + 1..][i + k - j - 1] == s[i + k];
      }
    }
  }

  // ---------------------------------------------------------------------
  // Ordering of strings by code points (Python's `<` on `str`)

  /** `a < b` in Python: lexicographic by code point, a proper prefix first. */
  predicate Below(a: string, b: string)
    decreases |a|
  {
    |b| > 0 && (|a| == 0 || a[0] < b[0] || (a[0] == b[0] && Below(a[1..], b[1..])))
  }

  lemma {:induction false} BelowIrreflexive(a: string)
    ensures !Below(a, a)
    decreases |a|
  {
    if |a| > 0 {
      BelowIrreflexive(a[1..]);
    }
  }

  lemma {:induction false} BelowTransitive(a: string, b: string, c: string)
    requires Below(a, b) && Below(b, c)
    ensures Below(a, c)
    decreases |a|
  {
    if |a| > 0 && a[0] == b[0] && b[0] == c[0] {
      BelowTransitive(a[1..], b[1..], c[1..]);
    }
  }

  lemma {:induction false} BelowTotal(a: string, b: string)
    ensures a == b || Below(a, b) || Below(b, a)
    decreases |a|
  {
    if |a| > 0 && |b| > 0 && a[0] == b[0] {
      BelowTotal(a[1..], b[1..]);
      if a[1..] == b[1..] {
        assert a == [a[0]] + a[1..];
        assert b == [b[0]] + b[1..];
      }
    }
  }

  /** `Below` is a strict total order, so "not below" is its reflexive
      counterpart and two strings neither below the other are equal. */
  lemma BelowAntisymmetric(a: string, b: string)
    requires !Below(a, b) && !Below(b, a)
    ensures a == b
  {
    BelowTotal(a, b);
  }

  // ---------------------------------------------------------------------
  // Sorting (`list.sort()` and `sorted` on strings)

  /** Ascending by code point: no later element is below an earlier one. */
  predicate Sorted(s: seq<string>) {
    forall i, j | 0 <= i < j < |s| :: !Below(s[j], s[i])
  }

  /** `x` placed into the sorted `s` after every element below it. */
  function Insert(x: string, s: seq<string>): seq<string>
    decreases |s|
  {
    if |s| == 0 then [x]
    else if Below(s[0], x) then [s[0]] + Insert(x, s[1..])
    else [x] + s
  }

  /** `sorted(s)`, as an insertion sort. */
  function SortStrings(s: seq<string>): seq<string>
    decreases |s|
  {
    if |s| == 0 then [] else Insert(s[0], SortStrings(s[1..]))
  }

  lemma BelowAsymmetric(a: string, b: string)
    requires Below(a, b)
    ensures !Below(b, a)
  {
    if Below(b, a) {
      BelowTransitive(a, b, a);
      BelowIrreflexive(a);
    }
  }

  /** "Not below" chains: `a <= b <= c` gives `a <= c`. */
  lemma NotBelowTransitive(a: string, b: string, c: string)
    requires !Below(b, a) && !Below(c, b)
    ensures !Below(c, a)
  {
    if Below(c, a) {
      BelowTotal(b, c);
      if Below(b, c) {
        BelowTransitive(b, c, a);
      }
    }
  }

  /** An element no later element is below, put in front of a sorted
      sequence, keeps it sorted. */
  lemma SortedCons(h: string, t: seq<string>)
    requires Sorted(t) && forall k | 0 <= k < |t| :: !Below(t[k], h)
    ensures Sorted([h] + t)
  {
    var u := [h] + t;
    forall i, j | 0 <= i < j < |u|
      ensures !Below(u[j], u[i])
    {
      assert u[j] == t[j - 1];
      if i > 0 {
        assert u[i] == t[i - 1];
      }
    }
  }

  lemma {:induction false} InsertSorted(x: string, s: seq<string>)
    requires Sorted(s)
    ensures Sorted(Insert(x, s))
    ensures multiset(Insert(x, s)) == multiset(s) + multiset{x}
    decreases |s|
  {
    if |s| > 0 {
      assert s == [s[0]] + s[1..];
      if Below(s[0], x) {
        InsertSorted(x, s[1..]);
        InsertAfterHead(x, s);
      } else {
        InsertBeforeAll(x, s);
      }
    }
  }

  lemma InsertAfterHead(x: string, s: seq<string>)
    requires Sorted(s) && |s| > 0 && Below(s[0], x)
    requires Sorted(Insert(x, s[1..])) && multiset(Insert(x, s[1..])) == multiset(s[1..]) + multiset{x}
    ensures Sorted(Insert(x, s))
  {
    var r := Insert(x, s[1..]);
    forall k | 0 <= k < |r|
      ensures !Below(r[k], s[0])
    {
      assert r[k] in multiset(r);
      if r[k] == x {
        BelowAsymmetric(s[0], x);
      } else {
        assert r[k] in multiset(s[1..]);
        var m :| 0 <= m < |s[1..]| && s[1..][m] == r[k];
        assert s[m + 1] == r[k];
      }
    }
    SortedCons(s[0], r);
  }

  lemma InsertBeforeAll(x: string, s: seq<string>)
    requires Sorted(s) && |s| > 0 && !Below(s[0], x)
    ensures Sorted(Insert(x, s))
  {
    forall k | 0 <= k < |s|
      ensures !Below(s[k], x)
    {
      if k > 0 {
        BelowTotal(s[0], x);
        if Below(x, s[0]) {
          NotBelowTransitive(x, s[0], s[k]);
        }
      }
    }
    SortedCons(x, s);
  }

  /** `sorted(s)` is ascending and holds the elements of `s`, each as
      often. */
  lemma {:induction false} SortStringsCorrect(s: seq<string>)
    ensures Sorted(SortStrings(s))
    ensures multiset(SortStrings(s)) == multiset(s)
    decreases |s|
  {
    if |s| > 0 {
      SortStringsCorrect(s[1..]);
      InsertSorted(s[0], SortStrings(s[1..]));
      assert s == [s[0]] + s[1..];
    }
  }

  /** Two ascending arrangements of the same non-empty elements start
      with the same, least, element. */
  lemma SortedHeadsEqual(a: seq<string>, b: seq<string>)
    requires Sorted(a) && Sorted(b) && multiset(a) == multiset(b) && |a| > 0
    ensures |b| > 0 && a[0] == b[0]
  {
    assert a[0] in multiset(b);
    var k :| 0 <= k < |b| && b[k] == a[0];
    assert b[0] in multiset(a);
    var m :| 0 <= m < |a| && a[m] == b[0];
    if k != 0 && m != 0 {
      BelowAntisymmetric(a[0], b[0]);
    }
  }

  /** Two ascending arrangements of the same elements are the same
      sequence: the sorted order does not depend on the input order. */
  lemma {:induction false} SortedUnique(a: seq<string>, b: seq<string>)
    requires Sorted(a) && Sorted(b) && multiset(a) == multiset(b)
    ensures a == b
    decreases |a|
  {
    if |a| == 0 {
      assert |multiset(b)| == 0;
    } else {
      SortedHeadsEqual(a, b);
      assert a == [a[0]] + a[1..] && b == [b[0]] + b[1..];
      assert multiset(a[1..]) == multiset(a) - multiset{a[0]};
      assert multiset(b[1..]) == multiset(b) - multiset{b[0]};
      SortedUnique(a[1..], b[1..]);
    }
  }

  /** The sort of a rearrangement is the sort of the original. */
  lemma SortStringsPermutation(a: seq<string>, b: seq<string>)
    requires multiset(a) == multiset(b)
    ensures SortStrings(a) == SortStrings(b)
  {
    SortStringsCorrect(a);
    SortStringsCorrect(b);
    SortedUnique(SortStrings(a), SortStrings(b));
  }

  // ---------------------------------------------------------------------
  // Decimal numbers (`str(n)` and `int(s)`)

  predicate IsDigit(c: char) {
    '0' <= c <= '9'
  }

  predicate AllDigits(s: string) {
    forall i | 0 <= i < |s| :: IsDigit(s[i])
  }

  function DigitChar(d: nat): (c: char)
    requires d < 10
    ensures IsDigit(c) && c as int - '0' as int == d
  {
    ('0' as int + d) as char
  }

  /** `str(n)` for a non-negative integer. */
  function NatToDecimal(n: nat): string
    decreases n
  {
    if n < 10 then [DigitChar(n)] else NatToDecimal(n / 10) + [DigitChar(n % 10)]
  }

  /** `str(i)` for any integer: a minus sign before the digits of `-i`. */
  function IntToDecimal(i: int): string {
    if i < 0 then "-" + NatToDecimal(-i) else NatToDecimal(i)
  }

  /** The value of a run of ASCII digits, most significant first. */
  function DigitsValue(s: string): nat
    requires AllDigits(s)
    decreases |s|
  {
    if |s| == 0 then 0 else DigitsValue(s[..|s| - 1]) * 10 + (s[|s| - 1] as int - '0' as int)
  }

  /** Python's `int(s)` on an optionally signed run of ASCII digits; `None`
      stands for the `ValueError` it raises on anything else. */
  function ParseInt(s: string): (v: Option<int>)
    ensures v.Some? <==> (|s| > 0 && AllDigits(s)) || (|s| > 1 && (s[0] == '-' || s[0] == '+') && AllDigits(s[1..]))
    ensures v.Some? && v.value < 0 ==> s[0] == '-'
  {
    if |s| > 0 && (s[0] == '-' || s[0] == '+') then
      if |s| > 1 && AllDigits(s[1..]) then
        Some(if s[0] == '-' then -(DigitsValue(s[1..]) as int) else DigitsValue(s[1..]))
      else None
    else if |s| > 0 && AllDigits(s) then Some(DigitsValue(s))
    else None
  }

  lemma {:induction false} NatToDecimalDigits(n: nat)
    ensures |NatToDecimal(n)| > 0 && AllDigits(NatToDecimal(n))
    ensures DigitsValue(NatToDecimal(n)) == n
    decreases n
  {
    if n >= 10 {
      NatToDecimalDigits(n / 10);
      var s := NatToDecimal(n);
      assert s[..|s| - 1] == NatToDecimal(n / 10);
    }
  }

  /** `int(str(i)) == i` for every integer. */
  lemma ParseIntOfDecimal(i: int)
    ensures ParseInt(IntToDecimal(i)) == Some(i)
  {
    if i < 0 {
      var d := NatToDecimal(-i);
      NatToDecimalDigits(-i);
      assert IntToDecimal(i) == "-" + d;
      assert ("-" + d)[0] == '-' && ("-" + d)[1..] == d;
      assert ParseInt("-" + d) == Some(-(DigitsValue(d) as int));
    } else {
      var d := NatToDecimal(i);
      NatToDecimalDigits(i);
      assert IsDigit(d[0]) && d[0] != '-' && d[0] != '+';
      assert ParseInt(d) == Some(DigitsValue(d));
    }
  }

  /** The decimal form of an integer holds no underscore. */
  lemma DecimalHasNoUnderscore(i: int)
    ensures '_' !in IntToDecimal(i)
  {
    var n: nat := if i < 0 then -i else i;
    NatToDecimalDigits(n);
    var d := NatToDecimal(n);
    forall k | 0 <= k < |d|
      ensures d[k] != '_'
    {
      assert IsDigit(d[k]);
    }
  }

  // ---------------------------------------------------------------------
  // Digits beyond ASCII (`str.isdigit`, and `int` on a run of digits),
  // as in Unicode 15.0

  /** The first code point of the block of ten decimal digits (general
      category Nd) beyond ASCII that holds `cp`, -1 when none does. The
      blocks ascend; the one starting at `z` holds the digits 0 to 9 at
      `z` to `z + 9`. */
  function NonAsciiDecimalBlock(cp: int): (z: int)
    ensures z == -1 || 0x80 <= z <= cp < z + 10
  {
    if cp < 0x660 then -1 else if cp < 0x66A then 0x660
    else if cp < 0x6F0 then -1 else if cp < 0x6FA then 0x6F0
    else if cp < 0x7C0 then -1 else if cp < 0x7CA then 0x7C0
    else if cp < 0x966 then -1 else if cp < 0x970 then 0x966
    else if cp < 0x9E6 then -1 else if cp < 0x9F0 then 0x9E6
    else if cp < 0xA66 then -1 else if cp < 0xA70 then 0xA66
    else if cp < 0xAE6 then -1 else if cp < 0xAF0 then 0xAE6
    else if cp < 0xB66 then -1 else if cp < 0xB70 then 0xB66
    else if cp < 0xBE6 then -1 else if cp < 0xBF0 then 0xBE6
    else if cp < 0xC66 then -1 else if cp < 0xC70 then 0xC66
    else if cp < 0xCE6 then -1 else if cp < 0xCF0 then 0xCE6
    else if cp < 0xD66 then -1 else if cp < 0xD70 then 0xD66
    else if cp < 0xDE6 then -1 else if cp < 0xDF0 then 0xDE6
    else if cp < 0xE50 then -1 else if cp < 0xE5A then 0xE50
    else if cp < 0xED0 then -1 else if cp < 0xEDA then 0xED0
    else if cp < 0xF20 then -1 else if cp < 0xF2A then 0xF20
    else if cp < 0x1040 then -1 else if cp < 0x104A then 0x1040
    else if cp < 0x1090 then -1 else if cp < 0x109A then 0x1090
    else if cp < 0x17E0 then -1 else if cp < 0x17EA then 0x17E0
    else if cp < 0x1810 then -1 else if cp < 0x181A then 0x1810
    else if cp < 0x1946 then -1 else if cp < 0x1950 then 0x1946
    else if cp < 0x19D0 then -1 else if cp < 0x19DA then 0x19D0
    else if cp < 0x1A80 then -1 else if cp < 0x1A8A then 0x1A80
    else if cp < 0x1A90 then -1 else if cp < 0x1A9A then 0x1A90
    else if cp < 0x1B50 then -1 else if cp < 0x1B5A then 0x1B50
    else if cp < 0x1BB0 then -1 else if cp < 0x1BBA then 0x1BB0
    else if cp < 0x1C40 then -1 else if cp < 0x1C4A then 0x1C40
    else if cp < 0x1C50 then -1 else if cp < 0x1C5A then 0x1C50
    else if cp < 0xA620 then -1 else if cp < 0xA62A then 0xA620
    else if cp < 0xA8D0 then -1 else if cp < 0xA8DA then 0xA8D0
    else if cp < 0xA900 then -1 else if cp < 0xA90A then 0xA900
    else if cp < 0xA9D0 then -1 else if cp < 0xA9DA then 0xA9D0
    else if cp < 0xA9F0 then -1 else if cp < 0xA9FA then 0xA9F0
    else if cp < 0xAA50 then -1 else if cp < 0xAA5A then 0xAA50
    else if cp < 0xABF0 then -1 else if cp < 0xABFA then 0xABF0
    else if cp < 0xFF10 then -1 else if cp < 0xFF1A then 0xFF10
    else if cp < 0x104A0 then -1 else if cp < 0x104AA then 0x104A0
    else if cp < 0x10D30 then -1 else if cp < 0x10D3A then 0x10D30
    else if cp < 0x11066 then -1 else if cp < 0x11070 then 0x11066
    else if cp < 0x110F0 then -1 else if cp < 0x110FA then 0x110F0
    else if cp < 0x11136 then -1 else if cp < 0x11140 then 0x11136
    else if cp < 0x111D0 then -1 else if cp < 0x111DA then 0x111D0
    else if cp < 0x112F0 then -1 else if cp < 0x112FA then 0x112F0
    else if cp < 0x11450 then -1 else if cp < 0x1145A then 0x11450
    else if cp < 0x114D0 then -1 else if cp < 0x114DA then 0x114D0
    else if cp < 0x11650 then -1 else if cp < 0x1165A then 0x11650
    else if cp < 0x116C0 then -1 else if cp < 0x116CA then 0x116C0
    else if cp < 0x11730 then -1 else if cp < 0x1173A then 0x11730
    else if cp < 0x118E0 then -1 else if cp < 0x118EA then 0x118E0
    else if cp < 0x11950 then -1 else if cp < 0x1195A then 0x11950
    else if cp < 0x11C50 then -1 else if cp < 0x11C5A then 0x11C50
    else if cp < 0x11D50 then -1 else if cp < 0x11D5A then 0x11D50
    else if cp < 0x11DA0 then -1 else if cp < 0x11DAA then 0x11DA0
    else if cp < 0x11F50 then -1 else if cp < 0x11F5A then 0x11F50
    else if cp < 0x16A60 then -1 else if cp < 0x16A6A then 0x16A60
    else if cp < 0x16AC0 then -1 else if cp < 0x16ACA then 0x16AC0
    else if cp < 0x16B50 then -1 else if cp < 0x16B5A then 0x16B50
    else if cp < 0x1D7CE then -1 else if cp < 0x1D7D8 then 0x1D7CE
    else if cp < 0x1D7E2 then 0x1D7D8
    else if cp < 0x1D7EC then 0x1D7E2
    else if cp < 0x1D7F6 then 0x1D7EC
    else if cp < 0x1D800 then 0x1D7F6
    else if cp < 0x1E140 then -1 else if cp < 0x1E14A then 0x1E140
    else if cp < 0x1E2F0 then -1 else if cp < 0x1E2FA then 0x1E2F0
    else if cp < 0x1E4F0 then -1 else if cp < 0x1E4FA then 0x1E4F0
    else if cp < 0x1E950 then -1 else if cp < 0x1E95A then 0x1E950
    else if cp < 0x1FBF0 then -1 else if cp < 0x1FBFA then 0x1FBF0
    else -1
  }

  /** The other characters `str.isdigit` accepts (numeric type Digit:
      superscripts, subscripts, circled digits and the like), as ascending
      ranges of code points, both ends included. `int` refuses them. */
  const OtherDigitRanges: seq<(int, int)> := [
    (0xB2, 0xB3), (0xB9, 0xB9), (0x1369, 0x1371), (0x19DA, 0x19DA), (0x2070, 0x2070),
    (0x2074, 0x2079), (0x2080, 0x2089), (0x2460, 0x2468), (0x2474, 0x247C), (0x2488, 0x2490),
    (0x24EA, 0x24EA), (0x24F5, 0x24FD), (0x24FF, 0x24FF), (0x2776, 0x277E), (0x2780, 0x2788),
    (0x278A, 0x2792), (0x10A40, 0x10A43), (0x10E60, 0x10E68), (0x11052, 0x1105A), (0x1F100, 0x1F10A)
  ]

  /** `unicodedata.decimal(c, None)`: the value of a decimal digit, the
      only kind of digit `int` reads. On ASCII it is the digit's value for
      `0` to `9` and nothing for any other character. */
  function DecimalValue(c: char): (v: Option<nat>)
    ensures v.Some? ==> v.value < 10
    ensures IsDigit(c) ==> v == Some(c as int - '0' as int)
    ensures c as int < 0x80 && !IsDigit(c) ==> v.None?
  {
    if c as int < 0x80 then
      if IsDigit(c) then Some(c as int - '0' as int) else None
    else
      var z := NonAsciiDecimalBlock(c as int);
      if z == -1 then None else Some(c as int - z)
  }

  /** `cp` lies in one of the ascending `ranges`. */
  predicate InRanges(cp: int, ranges: seq<(int, int)>) {
    |ranges| > 0 && cp >= ranges[0].0 && (cp <= ranges[0].1 || InRanges(cp, ranges[1..]))
  }

  /** `c.isdigit()` for one character: a decimal digit, or another
      character of numeric type Digit. */
  predicate IsUnicodeDigit(c: char) {
    DecimalValue(c).Some? || InRanges(c as int, OtherDigitRanges)
  }

  /** On ASCII, `isdigit` accepts exactly `0` to `9`. */
  lemma AsciiIsDigit(c: char)
    requires c as int < 0x80
    ensures IsUnicodeDigit(c) <==> IsDigit(c)
  {
    assert OtherDigitRanges[0].0 == 0xB2;
  }

  /** The value of a run of decimal digits of any script, most
      significant first; None when one of its characters is not a
      decimal digit. */
  function DecimalsValue(s: string): (v: Option<nat>)
    ensures v.Some? <==> forall i | 0 <= i < |s| :: DecimalValue(s[i]).Some?
    ensures AllDigits(s) ==> v == Some(DigitsValue(s))
    decreases |s|
  {
    if |s| == 0 then Some(0)
    else
      var init := s[..|s| - 1];
      var h := DecimalsValue(init);
      var d := DecimalValue(s[|s| - 1]);
      assert forall i | 0 <= i < |init| :: init[i] == s[i];
      assert AllDigits(s) ==> AllDigits(init);
      if h.Some? && d.Some? then Some(h.value * 10 + d.value) else None
  }

  /** Python's `int(s)` on a run of characters that `isdigit` accepts:
      the value when every one is a decimal digit; None for the
      `ValueError` it raises on an empty run or on any other digit, such
      as a superscript. */
  function ParseDigitRun(s: string): (v: Option<nat>)
    ensures v.Some? <==> |s| > 0 && forall i | 0 <= i < |s| :: DecimalValue(s[i]).Some?
    ensures |s| > 0 && AllDigits(s) ==> v == ParseInt(s)
  {
    if |s| == 0 then None else DecimalsValue(s)
  }

  // ---------------------------------------------------------------------
  // Splitting and joining

  /** Python's `s.split(sep)` on a one-character separator. */
  function Split(s: string, sep: char): (parts: seq<string>)
    ensures |parts| >= 1
    decreases |s|
  {
    if |s| == 0 then [""]
    else
      var rest := Split(s[1..], sep);
      if s[0] == sep then [""] + rest else [[s[0]] + rest[0]] + rest[1..]
  }

  /** Python's `s.split(sep, maxsplit)`: at most `maxsplit` cuts, the
      remainder kept whole in the last part. */
  function SplitAtMost(s: string, sep: char, maxsplit: nat): (parts: seq<string>)
    ensures 1 <= |parts| <= maxsplit + 1
    decreases |s|
  {
    if maxsplit == 0 || |s| == 0 then [s]
    else if s[0] == sep then [""] + SplitAtMost(s[1..], sep, maxsplit - 1)
    else
      var rest := SplitAtMost(s[1..], sep, maxsplit);
      [[s[0]] + rest[0]] + rest[1..]
  }

  /** One part more than there are separators: every separator cuts. */
  lemma {:induction false} SplitCount(s: string, sep: char)
    ensures |Split(s, sep)| == multiset(s)[sep] + 1
    decreases |s|
  {
    if |s| > 0 {
      SplitCount(s[1..], sep);
      assert s == [s[0]] + s[1..];
    }
  }

  /** One part more than the cuts made, which are the separators up to
      `maxsplit` of them. */
  lemma {:induction false} SplitAtMostCount(s: string, sep: char, maxsplit: nat)
    ensures |SplitAtMost(s, sep, maxsplit)| == (if multiset(s)[sep] < maxsplit then multiset(s)[sep] else maxsplit) + 1
    decreases |s|
  {
    if maxsplit > 0 && |s| > 0 {
      assert s == [s[0]] + s[1..];
      if s[0] == sep {
        SplitAtMostCount(s[1..], sep, maxsplit - 1);
      } else {
        SplitAtMostCount(s[1..], sep, maxsplit);
      }
    }
  }

  /** A string without the separator splits into itself alone. */
  lemma {:induction false} SplitWithoutSeparator(s: string, sep: char, maxsplit: nat)
    requires sep !in s
    ensures Split(s, sep) == [s]
    ensures SplitAtMost(s, sep, maxsplit) == [s]
    decreases |s|
  {
    if |s| > 0 {
      assert sep !in s[1..];
      SplitWithoutSeparator(s[1..], sep, maxsplit);
      assert [s[0]] + s[1..] == s;
    }
  }

  /** Splitting cuts at the first separator. */
  lemma {:induction false} SplitFirst(a: string, sep: char, b: string)
    requires sep !in a
    ensures Split(a + [sep] + b, sep) == [a] + Split(b, sep)
    decreases |a|
  {
    if |a| > 0 {
      assert (a + [sep] + b)[1..] == a[1..] + [sep] + b;
      SplitFirst(a[1..], sep, b);
      assert [a[0]] + a[1..] == a;
    } else {
      assert (a + [sep] + b)[1..] == b;
    }
  }

  /** With a cut left to make, `SplitAtMost` also cuts at the first separator. */
  lemma {:induction false} SplitAtMostFirst(a: string, sep: char, b: string, maxsplit: nat)
    requires sep !in a && maxsplit > 0
    ensures SplitAtMost(a + [sep] + b, sep, maxsplit) == [a] + SplitAtMost(b, sep, maxsplit - 1)
    decreases |a|
  {
    if |a| > 0 {
      assert (a + [sep] + b)[1..] == a[1..] + [sep] + b;
      SplitAtMostFirst(a[1..], sep, b, maxsplit);
      assert [a[0]] + a[1..] == a;
    } else {
      assert (a + [sep] + b)[1..] == b;
    }
  }

  /** Joining a part in front of a non-empty join. */
  lemma JoinCons(p: string, rest: seq<string>, sep: string)
    requires |rest| > 0
    ensures Join([p] + rest, sep) == p + sep + Join(rest, sep)
  {
    assert ([p] + rest)[1..] == rest;
  }

  /** Splitting loses nothing: the parts hold no separator and joined with
      it give the string back. */
  lemma {:induction false} SplitJoin(s: string, sep: char)
    ensures Join(Split(s, sep), [sep]) == s
    ensures forall i | 0 <= i < |Split(s, sep)| :: sep !in Split(s, sep)[i]
    decreases |s|
  {
    if |s| > 0 {
      SplitJoin(s[1..], sep);
      var rest := Split(s[1..], sep);
      if s[0] == sep {
        JoinCons("", rest, [sep]);
        assert [sep] + s[1..] == s;
      } else {
        var parts := Split(s, sep);
        assert parts == [[s[0]] + rest[0]] + rest[1..];
        if |rest| == 1 {
          assert Join(parts, [sep]) == [s[0]] + rest[0];
        } else {
          JoinCons([s[0]] + rest[0], rest[1..], [sep]);
          JoinCons(rest[0], rest[1..], [sep]);
          assert rest == [rest[0]] + rest[1..];
        }
        assert [s[0]] + s[1..] == s;
        forall i | 0 <= i < |parts|
          ensures sep !in parts[i]
        {
          if i > 0 {
            assert parts[i] == rest[i];
          }
        }
      }
    }
  }

  /** The bounded split also gives the string back when joined. */
  lemma {:induction false} SplitAtMostJoin(s: string, sep: char, maxsplit: nat)
    ensures Join(SplitAtMost(s, sep, maxsplit), [sep]) == s
    decreases |s|
  {
    if maxsplit > 0 && |s| > 0 {
      var parts := SplitAtMost(s, sep, maxsplit);
      if s[0] == sep {
        var rest := SplitAtMost(s[1..], sep, maxsplit - 1);
        assert parts == [""] + rest;
        SplitAtMostJoin(s[1..], sep, maxsplit - 1);
        JoinCons("", rest, [sep]);
        assert Join(parts, [sep]) == [sep] + s[1..];
      } else {
        var rest := SplitAtMost(s[1..], sep, maxsplit);
        assert parts == [[s[0]] + rest[0]] + rest[1..];
        SplitAtMostJoin(s[1..], sep, maxsplit);
        if |rest| > 1 {
          JoinCons([s[0]] + rest[0], rest[1..], [sep]);
          JoinCons(rest[0], rest[1..], [sep]);
          assert rest == [rest[0]] + rest[1..];
        }
        assert Join(parts, [sep]) == [s[0]] + s[1..];
      }
      assert [s[0]] + s[1..] == s;
    }
  }

  /** Python's `s[:n]` for a non-negative `n`. */
  function Take(s: string, n: nat): (t: string)
    ensures |t| <= n && StartsWith(s, t)
    ensures |s| <= n ==> t == s
    ensures |s| > n ==> |t| == n
  {
    if |s| <= n then s else s[..n]
  }

  /** Python's `s[n:]` for a non-negative `n`. */
  function Drop(s: string, n: nat): (t: string)
    ensures |s| <= n ==> t == ""
    ensures |s| > n ==> |t| == |s| - n && s == s[..n] + t
  {
    if |s| <= n then "" else s[n..]
  }

  /** `sep.join(parts)`. */
  function Join(parts: seq<string>, sep: string): string
    decreases |parts|
  {
    if |parts| == 0 then ""
    else if |parts| == 1 then parts[0]
    else parts[0] + sep + Join(parts[1..], sep)
  }

  /** Python's `s.replace(pat, rep)`: every occurrence of `pat`, scanned
      from the left without overlap, replaced by `rep`. */
  function ReplaceAll(s: string, pat: string, rep: string): string
    requires |pat| > 0
    decreases |s|
  {
    if |s| == 0 then ""
    else if StartsWith(s, pat) then rep + ReplaceAll(s[|pat|..], pat, rep)
    else [s[0]] + ReplaceAll(s[1..], pat, rep)
  }

  /** A string without an occurrence of `pat` is left as it is. */
  lemma {:induction false} ReplaceAbsent(s: string, pat: string, rep: string)
    requires |pat| > 0 && !Contains(s, pat)
    ensures ReplaceAll(s, pat, rep) == s
    decreases |s|
  {
    if |s| > 0 {
      if StartsWith(s, pat) {
        ContainsAt(s, pat, 0);
      }
      if Contains(s[1..], pat) {
        var i :| 0 <= i <= |s[1..]| - |pat| && OccursAt(s[1..], pat, i);
        assert s[i + 1..i + 1 + |pat|] == s[1..][i..i + |pat|];
        ContainsAt(s, pat, i + 1);
      }
      ReplaceAbsent(s[1..], pat, rep);
      assert [s[0]] + s[1..] == s;
    }
  }

  /** A leading `pat` followed by text free of `pat` leaves just that
      text once `pat` is replaced by nothing. */
  lemma StripLeading(pat: string, t: string)
    requires |pat| > 0 && !Contains(t, pat)
    ensures ReplaceAll(pat + t, pat, "") == t
  {
    assert (pat + t)[..|pat|] == pat;
    assert (pat + t)[|pat|..] == t;
    ReplaceAbsent(t, pat, "");
  }

  // ---------------------------------------------------------------------
  // UTF-8

  /** Bytes UTF-8 needs for one code point. */
  function Utf8Width(c: char): nat {
    if c as int < 0x80 then 1
    else if c as int < 0x800 then 2
    else if c as int < 0x10000 then 3
    else 4
  }

  /** `len(s.encode("utf-8"))`. */
  function Utf8Length(s: string): nat
    decreases |s|
  {
    if |s| == 0 then 0 else Utf8Width(s[0]) + Utf8Length(s[1..])
  }

  lemma {:induction false} Utf8LengthConcat(a: string, b: string)
    ensures Utf8Length(a + b) == Utf8Length(a) + Utf8Length(b)
    decreases |a|
  {
    if |a| > 0 {
      assert (a + b)[1..] == a[1..] + b;
      Utf8LengthConcat(a[1..], b);
    } else {
      assert a + b == b;
    }
  }

  /** Every character takes one to four bytes. */
  lemma {:induction false} Utf8LengthBounds(s: string)
    ensures |s| <= Utf8Length(s) <= 4 * |s|
    decreases |s|
  {
    if |s| > 0 {
      Utf8LengthBounds(s[1..]);
    }
  }

  /** ASCII text takes one byte per character. */
  lemma {:induction false} Utf8LengthAscii(s: string)
    requires forall i | 0 <= i < |s| :: s[i] as int < 0x80
    ensures Utf8Length(s) == |s|
    decreases |s|
  {
    if |s| > 0 {
      Utf8LengthAscii(s[1..]);
    }
  }
}
