/**
 * The two ways the Go code turns an `int` into text: the `%d` verb of
 * `fmt.Sprintf` (decimal digits, a leading '-' for negative values) and the
 * conversion `string(n)` (one Unicode code point). Go strings are modelled as
 * sequences of code points. The module also holds the inverse parsers and the
 * character searches the round-trip lemmas need.
 */
module Text {
  import opened Wrappers

  predicate IsDigit(c: char) {
    '0' <= c <= '9'
  }

  predicate AllDigits(s: string) {
    forall i :: 0 <= i < |s| ==> IsDigit(s[i])
  }

  function DigitChar(d: nat): (c: char)
    requires d < 10
    ensures IsDigit(c) && c as int - '0' as int == d
  {
    ('0' as int + d) as char
  }

  /** The decimal digits of `n`, most significant first, with no leading zero. */
  function Digits(n: nat): (s: string)
    ensures |s| >= 1 && AllDigits(s)
    ensures s[0] == '0' ==> n == 0
    decreases n
  {
    if n < 10 then [DigitChar(n)] else Digits(n / 10) + [DigitChar(n % 10)]
  }

  /** The value of a string of decimal digits (0 for the empty string). */
  function ParseNat(s: string): (n: nat)
    requires AllDigits(s)
  {
    if s == [] then 0 else ParseNat(s[..|s| - 1]) * 10 + (s[|s| - 1] as int - '0' as int)
  }

  /** `fmt.Sprintf("%d", n)`. */
  function FormatInt(n: int): (s: string)
    ensures |s| >= 1
    ensures n < 0 <==> s[0] == '-'
    ensures AllDigits(if n < 0 then s[1..] else s)
  {
    if n < 0 then "-" + Digits(-n) else Digits(n)
  }

  /** Reads back what `FormatInt` writes: an optional '-' followed by at least one digit. */
  function ParseInt(s: string): (r: Option<int>)
    ensures r.Some? ==> |s| >= 1
  {
    if |s| >= 2 && s[0] == '-' && AllDigits(s[1..]) then Some(0 - ParseNat(s[1..]))
    else if |s| >= 1 && AllDigits(s) then Some(ParseNat(s))
    else None
  }

  /** The number of decimal digits of `n`, by repeated division by ten. */
  function NumDigits(n: nat): (k: nat)
    decreases n
  {
    if n < 10 then 1 else 1 + NumDigits(n / 10)
  }

  function Pow10(k: nat): (p: nat)
    ensures p >= 1
  {
    if k == 0 then 1 else 10 * Pow10(k - 1)
  }

  lemma {:induction false} ParseDigits(n: nat)
    ensures ParseNat(Digits(n)) == n
    decreases n
  {
    if n >= 10 {
      var prefix := Digits(n / 10);
      assert (prefix + [DigitChar(n % 10)])[..|prefix|] == prefix;
      ParseDigits(n / 10);
    }
  }

  /** Formatting with `%d` loses nothing: every integer is read back exactly. */
  lemma {:induction false} FormatIntRoundTrip(n: int)
    ensures ParseInt(FormatInt(n)) == Some(n)
  {
    var s := FormatInt(n);
    if n < 0 {
      var d := Digits(-n);
      assert s == "-" + d;
      ParseSigned(d);
      ParseDigits(-n);
    } else {
      var d := Digits(n);
      assert s == d;
      ParseUnsigned(d);
      ParseDigits(n);
    }
  }

  lemma ParseSigned(d: string)
    requires |d| >= 1 && AllDigits(d)
    ensures ParseInt("-" + d) == Some(0 - ParseNat(d))
  {
    assert ("-" + d)[1..] == d;
  }

  lemma ParseUnsigned(d: string)
    requires |d| >= 1 && AllDigits(d)
    ensures ParseInt(d) == Some(ParseNat(d))
  {
    assert IsDigit(d[0]);
  }

  /** `%d` renders every `n` with `NumDigits(|n|)` digits, plus one for the sign of a negative `n`. */
  lemma {:induction false} FormatIntLength(n: int)
    ensures |FormatInt(n)| == (if n < 0 then 1 + NumDigits(-n) else NumDigits(n))
  {
    if n < 0 { DigitsLength(-n); } else { DigitsLength(n); }
  }

  lemma {:induction false} DigitsLength(n: nat)
    ensures |Digits(n)| == NumDigits(n)
    decreases n
  {
    if n >= 10 { DigitsLength(n / 10); }
  }

  /** `NumDigits(n)` is the k with 10^(k-1) <= n < 10^k (for n >= 1): the count of decimal places. */
  lemma {:induction false} NumDigitsBounds(n: nat)
    ensures n < Pow10(NumDigits(n))
    ensures n >= 1 ==> Pow10(NumDigits(n) - 1) <= n
    decreases n
  {
    if n >= 10 {
      NumDigitsBounds(n / 10);
      var k := NumDigits(n / 10);
      assert n / 10 < Pow10(k);
      assert n / 10 + 1 <= Pow10(k);
      assert n < 10 * (n / 10 + 1);
      assert Pow10(k - 1) <= n / 10;
      assert 10 * (n / 10) <= n;
    }
  }

  /** No ':' ever appears in a `%d` rendering. */
  lemma FormatIntHasNoColon(n: int)
    ensures forall i :: 0 <= i < |FormatInt(n)| ==> FormatInt(n)[i] != ':'
  {
    var s := FormatInt(n);
    if n < 0 {
      forall i | 1 <= i < |s| ensures s[i] != ':' {
        assert s[1..][i - 1] == s[i];
      }
    }
  }

  /** The index of the last occurrence of `c` in `s`, if any. */
  function LastIndexOf(s: string, c: char): (r: Option<nat>)
    ensures r.Some? ==> r.value < |s| && s[r.value] == c
    ensures r.Some? ==> forall j :: r.value < j < |s| ==> s[j] != c
    ensures r.None? ==> forall j :: 0 <= j < |s| ==> s[j] != c
  {
    if s == [] then None
    else if s[|s| - 1] == c then Some(|s| - 1)
    else LastIndexOf(s[..|s| - 1], c)
  }

  /** The index of the first occurrence of `c` in `s`, if any. */
  function FirstIndexOf(s: string, c: char): (r: Option<nat>)
    ensures r.Some? ==> r.value < |s| && s[r.value] == c
    ensures r.Some? ==> forall j :: 0 <= j < r.value ==> s[j] != c
    ensures r.None? ==> forall j :: 0 <= j < |s| ==> s[j] != c
  {
    if s == [] then None
    else if s[0] == c then Some(0)
    else match FirstIndexOf(s[1..], c)
      case None => None
      case Some(k) => Some(k + 1)
  }

  /** `FirstIndexOf` finds exactly the position before which `c` does not occur. */
  lemma FirstIndexIs(s: string, c: char, i: nat)
    requires i < |s| && s[i] == c
    requires forall k :: 0 <= k < i ==> s[k] != c
    ensures FirstIndexOf(s, c) == Some(i)
  {
  }

  /** `LastIndexOf` finds exactly the position after which `c` does not occur. */
  lemma LastIndexIs(s: string, c: char, i: nat)
    requires i < |s| && s[i] == c
    requires forall k :: i < k < |s| ==> s[k] != c
    ensures LastIndexOf(s, c) == Some(i)
  {
  }

  /** The Unicode replacement character U+FFFD. */
  const ReplacementChar: char := '\U{FFFD}'

  /** A Unicode scalar value: a code point that is not a surrogate. */
  predicate IsScalarValue(n: int) {
    0 <= n < 0xD800 || 0xE000 <= n < 0x11_0000
  }

  /** Go's `string(n)` for an integer `n`: the single code point `n`, or U+FFFD when `n` is not a scalar value. */
  function RuneOf(n: int): (c: char)
    ensures IsScalarValue(n) ==> c as int == n
    ensures !IsScalarValue(n) ==> c == ReplacementChar
  {
    if IsScalarValue(n) then n as char else ReplacementChar
  }

  /** `string(n)` produces every character, each from its own code point. */
  lemma RuneOfChar(c: char)
    ensures RuneOf(c as int) == c
  {
  }

  /** `string(n)` is not injective: any two non-scalar values collapse to U+FFFD, and so does 0xFFFD itself. */
  lemma RuneOfCollapses(m: int, n: int)
    requires !IsScalarValue(m) && (!IsScalarValue(n) || n == 0xFFFD)
    ensures RuneOf(m) == RuneOf(n) == ReplacementChar
  {
  }
}
