/** String operations the targeting engine relies on: substring search,
    decimal rendering and parsing of integers, and byte-wise ordering
    (PHP's `strcmp`). */
module PhpStrings {
  import opened Common

  /** `needle` occurs in `hay` starting at position `k`. */
  ghost predicate OccursAt(needle: string, hay: string, k: int) {
    0 <= k && k + |needle| <= |hay| && hay[k..k + |needle|] == needle
  }

  /** `needle` occurs somewhere in `hay` (PHP `strpos(...) !== false`). */
  function IsSubstring(needle: string, hay: string): bool
    decreases |hay|
  {
    if needle <= hay then true
    else if |hay| == 0 then false
    else IsSubstring(needle, hay[1..])
  }

  /** An occurrence at any position is found by the search. */
  lemma {:induction false} OccurrenceFound(needle: string, hay: string, k: int)
    requires OccursAt(needle, hay, k)
    ensures IsSubstring(needle, hay)
    decreases k
  {
    if k == 0 {
      assert hay[..|needle|] == needle;
    } else if !(needle <= hay) {
      assert hay[1..][k - 1..k - 1 + |needle|] == hay[k..k + |needle|];
      OccurrenceFound(needle, hay[1..], k - 1);
    }
  }

  /** The search succeeds exactly when the needle occurs at some position. */
  lemma {:induction false} IsSubstringIff(needle: string, hay: string)
    ensures IsSubstring(needle, hay) <==> exists k :: OccursAt(needle, hay, k)
    decreases |hay|
  {
    if IsSubstring(needle, hay) {
      if needle <= hay {
        assert hay[0..|needle|] == needle;
        assert OccursAt(needle, hay, 0);
      } else {
        IsSubstringIff(needle, hay[1..]);
        var k :| OccursAt(needle, hay[1..], k);
        assert hay[1..][k..k + |needle|] == hay[k + 1..k + 1 + |needle|];
        assert OccursAt(needle, hay, k + 1);
      }
    }
    forall k | OccursAt(needle, hay, k)
      ensures IsSubstring(needle, hay)
    {
      OccurrenceFound(needle, hay, k);
    }
  }

  /** Every character of a substring occurs in the string searched. */
  lemma SubstringCharsOccur(needle: string, hay: string, c: char)
    requires IsSubstring(needle, hay) && c in needle
    ensures c in hay
  {
    IsSubstringIff(needle, hay);
    var k :| OccursAt(needle, hay, k);
    var i :| 0 <= i < |needle| && needle[i] == c;
    assert hay[k..k + |needle|][i] == hay[k + i];
  }

  /** `s` ends with `suffix`. */
  predicate IsSuffix(suffix: string, s: string) {
    |suffix| <= |s| && s[|s| - |suffix|..] == suffix
  }

  function DigitChar(d: nat): (c: char)
    requires d < 10
    ensures IsDigit(c) && DigitValue(c) == d
  {
    ['0', '1', '2', '3', '4', '5', '6', '7', '8', '9'][d]
  }

  predicate IsDigit(c: char) {
    '0' <= c <= '9'
  }

  function DigitValue(c: char): (d: nat)
    requires IsDigit(c)
    ensures d < 10
  {
    (c as int) - ('0' as int)
  }

  /** Decimal rendering of a natural number, most significant digit first. */
  function NatToString(n: nat): string
    decreases n
  {
    if n < 10 then [DigitChar(n)] else NatToString(n / 10) + [DigitChar(n % 10)]
  }

  /** PHP's `(string)` cast of an integer. */
  function IntToString(i: int): string {
    if i < 0 then "-" + NatToString(-i) else NatToString(i)
  }

  predicate AllDigits(s: string) {
    forall k :: 0 <= k < |s| ==> IsDigit(s[k])
  }

  /** The value of a digit string, read from the right. */
  function DigitsValue(s: string): nat
    requires AllDigits(s)
    decreases |s|
  {
    if |s| == 0 then 0 else DigitsValue(s[..|s| - 1]) * 10 + DigitValue(s[|s| - 1])
  }

  /** The integer a numeric string denotes: an optional minus sign followed by
      at least one decimal digit. Any other string is not numeric here. */
  function ParseInt(s: string): Option<int> {
    if |s| > 0 && s[0] == '-' && |s| > 1 && AllDigits(s[1..]) then Some(-(DigitsValue(s[1..]) as int))
    else if |s| > 0 && AllDigits(s) then Some(DigitsValue(s))
    else None
  }

  lemma {:induction false} NatToStringDigits(n: nat)
    ensures |NatToString(n)| > 0 && AllDigits(NatToString(n))
    ensures DigitsValue(NatToString(n)) == n
    decreases n
  {
    if n >= 10 {
      NatToStringDigits(n / 10);
      var p := NatToString(n / 10);
      var s := NatToString(n);
      assert s == p + [DigitChar(n % 10)];
      assert s[..|s| - 1] == p;
    }
  }

  /** Rendering an integer and parsing it back gives the integer. */
  lemma {:induction false} IntToStringRoundTrip(i: int)
    ensures ParseInt(IntToString(i)) == Some(i)
  {
    if i < 0 {
      NatToStringDigits(-i);
      var s := IntToString(i);
      assert s[1..] == NatToString(-i);
      assert s[0] == '-';
    } else {
      NatToStringDigits(i);
      assert IntToString(i)[0] != '-' by {
        assert IsDigit(NatToString(i)[0]);
      }
    }
  }

  /** Byte-wise three-way comparison (PHP `strcmp`, sign only). */
  function LexCompare(a: string, b: string): (c: int)
    ensures -1 <= c <= 1
    decreases |a|
  {
    if |a| == 0 && |b| == 0 then 0
    else if |a| == 0 then -1
    else if |b| == 0 then 1
    else if a[0] < b[0] then -1
    else if a[0] > b[0] then 1
    else LexCompare(a[1..], b[1..])
  }

  lemma {:induction false} LexCompareAntisymmetric(a: string, b: string)
    ensures LexCompare(a, b) == -LexCompare(b, a)
    decreases |a|
  {
    if |a| > 0 && |b| > 0 && a[0] == b[0] {
      LexCompareAntisymmetric(a[1..], b[1..]);
    }
  }

  lemma {:induction false} LexCompareZeroIffEqual(a: string, b: string)
    ensures LexCompare(a, b) == 0 <==> a == b
    decreases |a|
  {
    if |a| > 0 && |b| > 0 && a[0] == b[0] {
      LexCompareZeroIffEqual(a[1..], b[1..]);
      if a[1..] == b[1..] {
        assert a == [a[0]] + a[1..] && b == [b[0]] + b[1..];
      }
    }
  }
}
