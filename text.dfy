/** Character classes, decimal numerals and the few Python string operations the calculator uses. */
module Text {
  import opened Wrappers

  /** Python's `str.isalpha`, restricted to ASCII letters. */
  predicate IsAlpha(c: char) {
    'a' <= c <= 'z' || 'A' <= c <= 'Z'
  }

  predicate IsDigit(c: char) {
    '0' <= c <= '9'
  }

  /** Python's `str.isalnum`, restricted to ASCII letters and digits. */
  predicate IsAlnum(c: char) {
    IsAlpha(c) || IsDigit(c)
  }

  /** A character of the run a number literal consists of: one of `0123456789.`. */
  predicate IsNumberChar(c: char) {
    IsDigit(c) || c == '.'
  }

  predicate AllDigits(s: string) {
    forall k :: 0 <= k < |s| ==> IsDigit(s[k])
  }

  predicate AllNumberChars(s: string) {
    forall k :: 0 <= k < |s| ==> IsNumberChar(s[k])
  }

  function DigitValue(c: char): (d: nat)
    requires IsDigit(c)
    ensures d < 10
  {
    (c as int) - ('0' as int)
  }

  function DigitChar(d: nat): (c: char)
    requires d < 10
    ensures IsDigit(c) && DigitValue(c) == d
  {
    ('0' as int + d) as char
  }

  /** The value of a string of decimal digits, most significant digit first; 0 for the empty string. */
  function DigitsValue(s: string): nat
    requires AllDigits(s)
  {
    if s == [] then 0 else 10 * DigitsValue(s[..|s| - 1]) + DigitValue(s[|s| - 1])
  }

  /** The decimal numeral of a natural number, as Python's `str(int)` writes it. */
  function IntToString(n: nat): (s: string)
    ensures |s| >= 1 && AllDigits(s)
  {
    if n < 10 then [DigitChar(n)] else IntToString(n / 10) + [DigitChar(n % 10)]
  }

  /** Reading back the numeral of `n` gives `n`. */
  lemma {:induction false} DigitsOfIntToString(n: nat)
    ensures DigitsValue(IntToString(n)) == n
  {
    var s := IntToString(n);
    if n >= 10 {
      assert s[..|s| - 1] == IntToString(n / 10);
      DigitsOfIntToString(n / 10);
    }
  }

  /** The number of decimal points in `s`. */
  function CountDots(s: string): nat {
    if s == [] then 0 else CountDots(s[..|s| - 1]) + (if s[|s| - 1] == '.' then 1 else 0)
  }

  /** The index of the first decimal point in `s`, or `|s|` when there is none. */
  function DotIndex(s: string): (k: nat)
    ensures k <= |s|
    ensures k < |s| ==> s[k] == '.'
  {
    if s == [] then 0 else if s[0] == '.' then 0 else 1 + DotIndex(s[1..])
  }

  /** No point comes before `DotIndex`. */
  lemma {:induction false} DotIndexFirst(s: string)
    ensures forall j :: 0 <= j < DotIndex(s) ==> s[j] != '.'
  {
    if s != [] && s[0] != '.' {
      DotIndexFirst(s[1..]);
    }
  }

  lemma {:induction false} CountDotsSplit(s: string, k: nat)
    requires k <= |s|
    ensures CountDots(s) == CountDots(s[..k]) + CountDots(s[k..])
    decreases |s| - k
  {
    if k < |s| {
      CountDotsSplit(s, k + 1);
      assert s[..k + 1][..k] == s[..k];
      var t := s[k..];
      assert t == [s[k]] + s[k + 1..];
      CountDotsFront(s[k], s[k + 1..]);
    } else {
      assert s[..k] == s;
    }
  }

  lemma {:induction false} CountDotsFront(c: char, s: string)
    ensures CountDots([c] + s) == (if c == '.' then 1 else 0) + CountDots(s)
    decreases |s|
  {
    if s != [] {
      var t := [c] + s;
      assert t[..|t| - 1] == [c] + s[..|s| - 1];
      CountDotsFront(c, s[..|s| - 1]);
    }
  }

  lemma {:induction false} NoDotsNoCount(s: string)
    requires forall j :: 0 <= j < |s| ==> s[j] != '.'
    ensures CountDots(s) == 0
  {
    if s != [] {
      NoDotsNoCount(s[..|s| - 1]);
    }
  }

  lemma {:induction false} NoCountNoDots(s: string)
    requires CountDots(s) == 0
    ensures forall j :: 0 <= j < |s| ==> s[j] != '.'
  {
    if s != [] {
      NoCountNoDots(s[..|s| - 1]);
      assert forall j :: 0 <= j < |s| - 1 ==> s[j] == s[..|s| - 1][j];
    }
  }

  /** A run of number characters with at most one point splits into digits, a point, digits. */
  lemma DotSplit(lit: string)
    requires AllNumberChars(lit) && CountDots(lit) <= 1
    ensures AllDigits(lit[..DotIndex(lit)])
    ensures DotIndex(lit) < |lit| ==> AllDigits(lit[DotIndex(lit) + 1..])
  {
    var k := DotIndex(lit);
    DotIndexFirst(lit);
    NumberCharsNoDots(lit[..k]);
    if k < |lit| {
      assert CountDots(lit[k + 1..]) == 0 by {
        CountDotsSplit(lit, k + 1);
        assert CountDots(lit[..k + 1]) == 1 by {
          assert lit[..k + 1][..k] == lit[..k];
          NoDotsNoCount(lit[..k]);
        }
      }
      NoCountNoDots(lit[k + 1..]);
      NumberCharsNoDots(lit[k + 1..]);
    }
  }

  /** Number characters other than the point are digits. */
  lemma NumberCharsNoDots(s: string)
    requires forall j :: 0 <= j < |s| ==> IsNumberChar(s[j]) && s[j] != '.'
    ensures AllDigits(s)
  {
  }

  /**
    * Python's `float(literal)` for a run of digits and at most one point: `None` exactly
    * when the run holds no digit (the literal "."), otherwise the exact decimal value.
    */
  function DecimalValue(lit: string): (r: Option<real>)
    requires AllNumberChars(lit) && CountDots(lit) <= 1
    ensures r.Some? ==> r.value >= 0.0
  {
    DotSplit(lit);
    var k := DotIndex(lit);
    var whole := lit[..k];
    var frac := if k < |lit| then lit[k + 1..] else "";
    if whole == "" && frac == "" then None
    else Some(DigitsValue(whole) as real + Shifted(DigitsValue(frac), |frac|))
  }

  /** `n` divided by ten `k` times: the value of `n` written `k` places after the point. */
  function Shifted(n: nat, k: nat): (v: real)
    ensures v >= 0.0
  {
    if k == 0 then n as real else Shifted(n, k - 1) / 10.0
  }

  /** A numeral with ".0" appended, as Python writes an integral float, reads back as that number. */
  lemma DecimalValueOfIntegral(n: nat)
    ensures AllNumberChars(IntToString(n) + ".0")
    ensures CountDots(IntToString(n) + ".0") == 1
    ensures DecimalValue(IntToString(n) + ".0") == Some(n as real)
  {
    var d := IntToString(n);
    var lit := d + ".0";
    assert AllNumberChars(lit) by {
      forall k | 0 <= k < |lit| ensures IsNumberChar(lit[k]) {
        if k < |d| { assert lit[k] == d[k]; }
      }
    }
    assert CountDots(lit) == 1 by {
      assert lit[..|lit| - 1] == d + ".";
      assert (d + ".")[..|d|] == d;
      NoDotsNoCount(d);
    }
    assert DotIndex(lit) == |d| by {
      assert lit == d + "." + "0";
      DotIndexAfterDigits(d, "0");
    }
    assert lit[..|d|] == d && lit[|d| + 1..] == "0";
    assert DigitsValue("0") == 0 by {
      assert "0"[..0] == "";
    }
    DigitsOfIntToString(n);
  }

  lemma {:induction false} DotIndexAfterDigits(d: string, rest: string)
    requires AllDigits(d)
    ensures DotIndex(d + "." + rest) == |d|
    decreases |d|
  {
    if d != [] {
      assert (d + "." + rest)[1..] == d[1..] + "." + rest;
      DotIndexAfterDigits(d[1..], rest);
    }
  }

  /**
    * Up to `fuel` decimal digits of a fraction in [0, 1), stopping at the first exact end.
    * Python's shortest round-trip digits of a double are not modelled.
    */
  function FractionDigits(f: real, fuel: nat): (s: string)
    requires 0.0 <= f < 1.0
    ensures |s| <= fuel && AllDigits(s)
    decreases fuel
  {
    if f == 0.0 || fuel == 0 then ""
    else
      var d := (f * 10.0).Floor;
      [DigitChar(d)] + FractionDigits(f * 10.0 - d as real, fuel - 1)
  }

  /**
    * Python's `str(float)` in positional form: sign, whole part, point, fraction. Python
    * switches to exponent form from 1e16 up and below 1e-4, which is not modelled.
    */
  function FloatRepr(v: real): (s: string)
    ensures 0.0 <= v < 10000000000000000.0 && v == v.Floor as real ==> s == IntToString(v.Floor) + ".0"
  {
    var m := if v < 0.0 then -v else v;
    var w := m.Floor;
    var f := m - w as real;
    (if v < 0.0 then "-" else "") + IntToString(w) + "." + (if f == 0.0 then "0" else FractionDigits(f, 16))
  }

  /** Python's `needle in hay` for two strings: a substring test, true of the empty needle. */
  predicate PyIn(needle: string, hay: string)
    decreases |hay|
  {
    (|needle| <= |hay| && needle == hay[..|needle|]) || (|hay| > 0 && PyIn(needle, hay[1..]))
  }

  /** The four strings that occur in the two-character string `[a, b]`. */
  predicate InPair(needle: string, a: char, b: char) {
    needle == "" || needle == [a] || needle == [b] || needle == [a, b]
  }

  /** On a two-character string the substring test accepts exactly the four needles of `InPair`. */
  lemma PyInPair(needle: string, a: char, b: char)
    ensures PyIn(needle, [a, b]) <==> InPair(needle, a, b)
  {
    assert [a, b][1..] == [b];
    assert [b][1..] == [];
    assert PyIn(needle, []) <==> needle == "";
  }
}
