/** Decimal digits of non-negative integers: the rendering `fmt.Sprint` gives
    them, the per-rune value `strconv.Atoi` gives a one-rune string, and the
    one-level digit sum that the whole engine rests on. */
module Decimal {

  predicate IsDigitChar(c: char) {
    '0' <= c <= '9'
  }

  /** The character of a single decimal digit. */
  function DigitChar(d: nat): (c: char)
    requires d < 10
    ensures IsDigitChar(c)
  {
    ('0' as int + d) as char
  }

  /** What `strconv.Atoi` returns for a one-rune string, with its error
      ignored: the digit's value for '0'..'9', and 0 for every other rune. */
  function CharValue(c: char): (v: nat)
    ensures v < 10
    ensures !IsDigitChar(c) ==> v == 0
  {
    if IsDigitChar(c) then c as int - '0' as int else 0
  }

  lemma CharValueOfDigitChar(d: nat)
    requires d < 10
    ensures CharValue(DigitChar(d)) == d
  {
  }

  lemma DigitCharOfCharValue(c: char)
    requires IsDigitChar(c)
    ensures DigitChar(CharValue(c)) == c
  {
  }

  /** `fmt.Sprint` of a non-negative int: its decimal digits, most
      significant first, without leading zeros. */
  function NatToString(n: nat): (s: string)
    ensures |s| >= 1
    ensures forall i :: 0 <= i < |s| ==> IsDigitChar(s[i])
    ensures s[0] == '0' ==> n == 0
    ensures n < 10 <==> |s| == 1
  {
    if n < 10 then [DigitChar(n)] else NatToString(n / 10) + [DigitChar(n % 10)]
  }

  /** Reference reading of a string of digits as a number (leading zeros allowed). */
  function ParseDecimal(s: string): nat {
    if |s| == 0 then 0 else 10 * ParseDecimal(s[..|s| - 1]) + CharValue(s[|s| - 1])
  }

  /** A canonical numeral: non-empty, digits only, no leading zero unless it is "0". */
  predicate IsCanonical(s: string) {
    && |s| >= 1
    && (forall i :: 0 <= i < |s| ==> IsDigitChar(s[i]))
    && (s[0] == '0' ==> |s| == 1)
  }

  lemma {:induction false} ParseNatToString(n: nat)
    ensures ParseDecimal(NatToString(n)) == n
    decreases n
  {
    if n >= 10 {
      var s := NatToString(n);
      assert s[..|s| - 1] == NatToString(n / 10);
      ParseNatToString(n / 10);
      CharValueOfDigitChar(n % 10);
    } else {
      CharValueOfDigitChar(n);
    }
  }

  lemma {:induction false} ParseZeroOnlyIfZeros(s: string)
    requires forall i :: 0 <= i < |s| ==> IsDigitChar(s[i])
    requires |s| >= 1 && s[0] != '0'
    ensures ParseDecimal(s) >= 1
    decreases |s|
  {
    if |s| > 1 {
      ParseZeroOnlyIfZeros(s[..|s| - 1]);
    }
  }

  /** NatToString and ParseDecimal are inverse on canonical numerals. */
  lemma {:induction false} NatToStringParse(s: string)
    requires IsCanonical(s)
    ensures NatToString(ParseDecimal(s)) == s
    decreases |s|
  {
    var c := s[|s| - 1];
    DigitCharOfCharValue(c);
    if |s| > 1 {
      var init := s[..|s| - 1];
      ParseZeroOnlyIfZeros(init);
      NatToStringParse(init);
      assert s == init + [c];
    }
  }

  lemma NatToStringInjective(a: nat, b: nat)
    requires NatToString(a) == NatToString(b)
    ensures a == b
  {
    ParseNatToString(a);
    ParseNatToString(b);
  }

  /** One level of decimal digit sum, defined arithmetically. */
  function DigitSum(n: nat): (r: nat)
    ensures r <= n
    ensures n >= 10 ==> r < n
    ensures r == 0 <==> n == 0
  {
    if n < 10 then n else n % 10 + DigitSum(n / 10)
  }

  /** A number is a fixed point of the digit sum exactly when it has one digit. */
  lemma DigitSumFixedPoint(n: nat)
    ensures DigitSum(n) == n <==> n < 10
  {
  }

  /** The digit sum keeps the residue modulo 9 (the casting-out-nines rule). */
  lemma {:induction false} DigitSumMod9(n: nat)
    ensures DigitSum(n) % 9 == n % 9
    decreases n
  {
    if n >= 10 {
      var q, r := n / 10, n % 10;
      DigitSumMod9(q);
      assert n == 9 * q + (q + r);
      ModShift(q + r, q);
      AddSameResidue(DigitSum(q), q, r);
    }
  }

  /** Adding a multiple of 9 keeps the residue. */
  lemma ModShift(x: nat, k: nat)
    ensures (9 * k + x) % 9 == x % 9
  {
  }

  /** Adding the same number to two numbers of equal residue keeps them equal. */
  lemma AddSameResidue(a: nat, b: nat, r: nat)
    requires a % 9 == b % 9
    ensures (r + a) % 9 == (r + b) % 9
  {
    ModShift(r + a % 9, a / 9);
    ModShift(r + b % 9, b / 9);
  }

  /** The decimal digits of `n` as numbers, most significant first. */
  function Digits(n: nat): (ds: seq<nat>)
    ensures |ds| == |NatToString(n)|
    ensures forall i :: 0 <= i < |ds| ==> ds[i] < 10
  {
    if n < 10 then [n] else Digits(n / 10) + [n % 10]
  }

  /** `sumSlices`: the total of a list; every element is at most the total. */
  function SeqSum(xs: seq<nat>): (r: nat)
    ensures forall i :: 0 <= i < |xs| ==> xs[i] <= r
  {
    if |xs| == 0 then 0 else SeqSum(xs[..|xs| - 1]) + xs[|xs| - 1]
  }

  /** One more element adds its value to the total. */
  lemma SeqSumSnoc(xs: seq<nat>, x: nat)
    ensures SeqSum(xs + [x]) == SeqSum(xs) + x
  {
    assert (xs + [x])[..|xs|] == xs;
  }

  lemma {:induction false} SeqSumAppend(xs: seq<nat>, ys: seq<nat>)
    ensures SeqSum(xs + ys) == SeqSum(xs) + SeqSum(ys)
    decreases |ys|
  {
    if |ys| > 0 {
      var last := ys[|ys| - 1];
      assert (xs + ys)[..|xs + ys| - 1] == xs + ys[..|ys| - 1];
      SeqSumAppend(xs, ys[..|ys| - 1]);
    } else {
      assert xs + ys == xs;
    }
  }

  /** `sumDigitsByStr`: every rune of the string contributes its `Atoi`
      value (0 when it is not a digit); returns the sum and the per-rune values. */
  function SumDigitsByStr(s: string): (r: (nat, seq<nat>))
    ensures |r.1| == |s|
    ensures forall i :: 0 <= i < |s| ==> r.1[i] == CharValue(s[i])
    ensures r.0 == SeqSum(r.1)
  {
    if |s| == 0 then (0, [])
    else
      var (sum, digits) := SumDigitsByStr(s[..|s| - 1]);
      (sum + CharValue(s[|s| - 1]), digits + [CharValue(s[|s| - 1])])
  }

  lemma {:induction false} SumDigitsByStrAppend(s: string, t: string)
    ensures SumDigitsByStr(s + t).0 == SumDigitsByStr(s).0 + SumDigitsByStr(t).0
    ensures SumDigitsByStr(s + t).1 == SumDigitsByStr(s).1 + SumDigitsByStr(t).1
  {
    var a, b, c := SumDigitsByStr(s).1, SumDigitsByStr(t).1, SumDigitsByStr(s + t).1;
    assert |c| == |a + b|;
    forall i | 0 <= i < |c|
      ensures c[i] == (a + b)[i]
    {
      if i < |s| {
        assert (s + t)[i] == s[i];
      } else {
        assert (s + t)[i] == t[i - |s|];
      }
    }
    assert c == a + b;
    SeqSumAppend(a, b);
  }

  /** The digit sum of a numeral (leading zeros allowed) is the digit sum of
      the number it denotes. */
  lemma {:induction false} CharSumIsDigitSum(s: string)
    requires forall i :: 0 <= i < |s| ==> IsDigitChar(s[i])
    ensures SumDigitsByStr(s).0 == DigitSum(ParseDecimal(s))
    decreases |s|
  {
    if |s| > 0 {
      var init := s[..|s| - 1];
      var v := CharValue(s[|s| - 1]);
      CharSumIsDigitSum(init);
      var p := ParseDecimal(init);
      var n := 10 * p + v;
      if p > 0 {
        assert n / 10 == p && n % 10 == v;
      }
    }
  }

  /** `sumDigits`: the digit sum of `fmt.Sprint(n)` rune by rune. It agrees with
      the arithmetic digit sum and lists the decimal digits of `n`. */
  function SumDigits(n: nat): (r: (nat, seq<nat>))
    ensures r.0 == DigitSum(n)
    ensures r.1 == Digits(n)
  {
    var s := NatToString(n);
    ParseNatToString(n);
    CharSumIsDigitSum(s);
    SumDigitsListsDigits(n);
    SumDigitsByStr(s)
  }

  lemma {:induction false} SumDigitsListsDigits(n: nat)
    ensures SumDigitsByStr(NatToString(n)).1 == Digits(n)
    decreases n
  {
    if n < 10 {
      CharValueOfDigitChar(n);
    } else {
      SumDigitsListsDigits(n / 10);
      SumDigitsByStrAppend(NatToString(n / 10), [DigitChar(n % 10)]);
      CharValueOfDigitChar(n % 10);
    }
  }
}
