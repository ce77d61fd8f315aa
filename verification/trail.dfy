/** The digit trail `[v, s(v), s(s(v)), ...]` of `sumDigitsToString` and its
    slash-joined rendering. */
module Trails {
  import opened Decimal
  import opened Text

  /** What a trail of `v` is: it starts at `v`, each next element is the digit
      sum of the one before, and it stops right after the first single digit. */
  predicate IsTrailOf(t: seq<nat>, v: nat) {
    && |t| >= 1
    && t[0] == v
    && t[|t| - 1] < 10
    && forall i :: 0 <= i < |t| - 1 ==> t[i] >= 10 && t[i + 1] == DigitSum(t[i])
  }

  /** The trail of `v`. It terminates because a number of two or more digits
      has a strictly smaller digit sum. */
  function Trail(v: nat): (t: seq<nat>)
    ensures IsTrailOf(t, v)
    decreases v
  {
    if v < 10 then [v] else [v] + Trail(DigitSum(v))
  }

  /** A trail is determined by its start: `IsTrailOf` has exactly one witness. */
  lemma {:induction false} TrailUnique(t: seq<nat>, v: nat)
    requires IsTrailOf(t, v)
    ensures t == Trail(v)
    decreases |t|
  {
    if |t| > 1 {
      assert IsTrailOf(t[1..], DigitSum(v));
      TrailUnique(t[1..], DigitSum(v));
      assert t == [v] + t[1..];
    }
  }

  /** Fixed-point law: a single digit is its own trail, and a trail that is a
      single element is the trail of a single digit. */
  lemma TrailFixedPoint(v: nat)
    ensures |Trail(v)| == 1 <==> v < 10
    ensures v < 10 ==> Trail(v) == [v]
    ensures Trail(Trail(v)[|Trail(v)| - 1]) == [Trail(v)[|Trail(v)| - 1]]
  {
  }

  /** The trail strictly decreases, so no value is repeated. */
  lemma {:induction false} TrailDecreasing(v: nat)
    ensures forall i, j :: 0 <= i < j < |Trail(v)| ==> Trail(v)[i] > Trail(v)[j]
    decreases v
  {
    var t := Trail(v);
    if v >= 10 {
      TrailDecreasing(DigitSum(v));
      assert t[1..] == Trail(DigitSum(v));
      forall i, j | 0 <= i < j < |t|
        ensures t[i] > t[j]
      {
        if i > 0 {
          assert t[i] == t[1..][i - 1] && t[j] == t[1..][j - 1];
        } else if j > 1 {
          assert t[1] == t[1..][0] && t[j] == t[1..][j - 1];
        }
      }
    }
  }

  lemma TrailNoRepeats(v: nat)
    ensures forall i, j :: 0 <= i < |Trail(v)| && 0 <= j < |Trail(v)| && i != j ==> Trail(v)[i] != Trail(v)[j]
  {
    TrailDecreasing(v);
  }

  /** The digital root: 0 for 0, otherwise the digit 1..9 congruent to n modulo 9. */
  function DigitalRoot(n: nat): (r: nat)
    ensures r < 10
    ensures r == 0 <==> n == 0
    ensures n > 0 ==> r % 9 == n % 9
  {
    if n == 0 then 0 else if n % 9 == 0 then 9 else n % 9
  }

  lemma DigitalRootOfDigitSum(n: nat)
    ensures DigitalRoot(DigitSum(n)) == DigitalRoot(n)
  {
    DigitSumMod9(n);
  }

  /** The reduced value, the trail's last element, is the digital root. */
  lemma {:induction false} TrailEndsInDigitalRoot(v: nat)
    ensures Trail(v)[|Trail(v)| - 1] == DigitalRoot(v)
    decreases v
  {
    if v >= 10 {
      TrailEndsInDigitalRoot(DigitSum(v));
      DigitalRootOfDigitSum(v);
      var t := Trail(v);
      assert t[|t| - 1] == Trail(DigitSum(v))[|Trail(DigitSum(v))| - 1];
    }
  }

  /** Two numbers with the same digital root reduce to the same digit. */
  lemma SameResidueSameReduction(a: nat, b: nat)
    requires a > 0 && b > 0 && a % 9 == b % 9
    ensures Trail(a)[|Trail(a)| - 1] == Trail(b)[|Trail(b)| - 1]
  {
    TrailEndsInDigitalRoot(a);
    TrailEndsInDigitalRoot(b);
  }

  /** The slash-joined rendering of the trail of `v`, as `sumDigitsToString` returns it. */
  function TrailString(v: nat): string {
    Join(Numerals(Trail(v)), "/")
  }

  /** Reading a rendered trail back: splitting on '/' gives the numerals of the
      trail, and parsing them gives the trail itself. */
  lemma TrailStringLayers(v: nat)
    ensures Split(TrailString(v), '/') == Numerals(Trail(v))
    ensures forall i :: 0 <= i < |Trail(v)| ==> ParseDecimal(Split(TrailString(v), '/')[i]) == Trail(v)[i]
  {
    var parts := Numerals(Trail(v));
    forall i | 0 <= i < |parts|
      ensures '/' !in parts[i]
    {
      assert forall k :: 0 <= k < |parts[i]| ==> IsDigitChar(parts[i][k]);
    }
    SplitJoin(parts, '/');
    forall i | 0 <= i < |Trail(v)|
      ensures ParseDecimal(parts[i]) == Trail(v)[i]
    {
      ParseNatToString(Trail(v)[i]);
    }
  }

  /** The rendering holds only digits and slashes. */
  lemma TrailStringAlphabet(v: nat)
    ensures |TrailString(v)| >= 1
    ensures forall i :: 0 <= i < |TrailString(v)| ==> IsDigitChar(TrailString(v)[i]) || TrailString(v)[i] == '/'
  {
    TrailStringLayers(v);
    JoinAlphabet(Numerals(Trail(v)));
  }

  lemma TrailStringSigns(v: nat)
    ensures '+' !in TrailString(v) && '-' !in TrailString(v)
  {
    TrailStringAlphabet(v);
  }

  lemma {:induction false} JoinAlphabet(parts: seq<string>)
    requires |parts| >= 1
    requires forall i :: 0 <= i < |parts| ==> |parts[i]| >= 1 && AllDigits(parts[i])
    ensures |Join(parts, "/")| >= 1
    ensures forall i :: 0 <= i < |Join(parts, "/")| ==> IsDigitChar(Join(parts, "/")[i]) || Join(parts, "/")[i] == '/'
    decreases |parts|
  {
    if |parts| > 1 {
      JoinAlphabet(parts[1..]);
    }
  }

  lemma TrailStringOfDigit(d: nat)
    requires d < 10
    ensures TrailString(d) == [DigitChar(d)]
  {
    assert Numerals([d]) == [[DigitChar(d)]];
  }

  lemma TrailStringExampleTen()
    ensures TrailString(10) == "10/1"
  {
    assert DigitSum(10) == 1;
    assert Trail(10) == [10, 1];
    assert NatToString(10) == "10";
    assert Numerals([10, 1]) == ["10", "1"];
    assert Join(["10", "1"], "/") == "10/1";
  }

  lemma TrailStringExampleFourteen()
    ensures TrailString(14) == "14/5"
  {
    assert DigitSum(14) == 5;
    assert Trail(14) == [14, 5];
    assert NatToString(14) == "14";
    assert Numerals([14, 5]) == ["14", "5"];
    assert Join(["14", "5"], "/") == "14/5";
  }

  lemma TrailStringExampleThirtyEight()
    ensures TrailString(38) == "38/11/2"
  {
    assert Trail(38) == [38, 11, 2] by {
      assert DigitSum(38) == 11;
      assert Trail(11) == [11, 2] by {
        assert DigitSum(11) == 2;
      }
    }
    assert Numerals([38, 11, 2]) == ["38", "11", "2"] by {
      assert NatToString(38) == "38";
      assert NatToString(11) == "11";
    }
    assert Join(["38", "11", "2"], "/") == "38/11/2" by {
      assert Join(["11", "2"], "/") == "11/2";
    }
  }

  /** `sumDigitsToString`: list the trail with the loop below, then render it
      with `intSliceToString`. */
  method SumDigitsToString(v: nat) returns (s: string)
    ensures s == TrailString(v)
  {
    var ds := TrailList(v);
    s := IntSliceToString(ds);
  }

  /** The loop of `sumDigitsToString`: append digit sums until the new sum
      equals the last element appended. */
  method TrailList(v: nat) returns (ds: seq<nat>)
    ensures ds == Trail(v)
  {
    ds := [v];
    var cur := v;
    while true
      invariant |ds| >= 1 && ds[|ds| - 1] == cur
      invariant Trail(v) == ds[..|ds| - 1] + Trail(cur)
      decreases cur
    {
      var d := SumDigits(cur).0;
      if ds[|ds| - 1] == d {
        TrailLoopExit(v, ds, cur);
        break;
      }
      TrailLoopStep(v, ds, cur);
      ds := ds + [d];
      cur := d;
    }
  }

  /** One turn of the loop in `TrailList` keeps its invariant. */
  lemma TrailLoopStep(v: nat, ds: seq<nat>, cur: nat)
    requires |ds| >= 1 && ds[|ds| - 1] == cur
    requires Trail(v) == ds[..|ds| - 1] + Trail(cur)
    requires cur >= 10
    ensures Trail(v) == (ds + [DigitSum(cur)])[..|ds|] + Trail(DigitSum(cur))
  {
    TrailStep(cur);
    assert (ds + [DigitSum(cur)])[..|ds|] == ds;
    assert ds == ds[..|ds| - 1] + [cur];
  }

  /** When the loop in `TrailList` stops, it has listed the whole trail. */
  lemma TrailLoopExit(v: nat, ds: seq<nat>, cur: nat)
    requires |ds| >= 1 && ds[|ds| - 1] == cur
    requires Trail(v) == ds[..|ds| - 1] + Trail(cur)
    requires DigitSum(cur) == cur
    ensures ds == Trail(v)
  {
    TrailFixedPoint(cur);
    SplitLast(ds);
  }

  lemma SplitLast(s: seq<nat>)
    requires |s| >= 1
    ensures s == s[..|s| - 1] + [s[|s| - 1]]
  {
  }

  lemma TrailStep(v: nat)
    requires v >= 10
    ensures Trail(v) == [v] + Trail(DigitSum(v))
  {
  }
}
