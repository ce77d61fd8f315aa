/** The soul degree of a stage label: how many of the label's digits occur
    among the digits of the date (`soulDegree`), raised when the main layers
    are all present, and the row of degrees shown under the labels
    (`soulDegrees`). */
module Soul {
  import opened Decimal
  import opened Text
  import opened Trails
  import opened Stages
  import opened DateDigest

  /** The raise a degree gets when its main layers are all present: 1 becomes
      4, 2 becomes 5, 3 becomes 7, and any other degree is kept. */
  function Bump(d: nat): (r: nat)
    ensures r >= d
    ensures 1 <= d <= 3 ==> 4 <= r <= 7 && r != 6
    ensures 1 <= d <= 2 ==> r == d + 3
    ensures d == 3 ==> r == 7
    ensures !(1 <= d <= 3) ==> r == d
  {
    if d == 1 || d == 2 then d + 3 else if d == 3 then 7 else d
  }

  /** Every rune of `s`, as a one-rune string, is a key of `digits`. */
  predicate AllKeys(s: string, digits: map<string, nat>) {
    forall i :: 0 <= i < |s| ==> [s[i]] in digits
  }

  /** How many runes of `s`, each as a one-rune string, are keys of `digits`. */
  function KeyCount(s: string, digits: map<string, nat>): (r: nat)
    ensures r <= |s|
    ensures r == |s| <==> AllKeys(s, digits)
    ensures r == 0 <==> forall i :: 0 <= i < |s| ==> [s[i]] !in digits
  {
    if |s| == 0 then 0
    else
      var init := s[..|s| - 1];
      assert forall i :: 0 <= i < |init| ==> init[i] == s[i];
      KeyCount(init, digits) + (if [s[|s| - 1]] in digits then 1 else 0)
  }

  /** Runes are counted with repetition: the count of a concatenation is the
      sum of the counts of its parts. */
  lemma {:induction false} KeyCountAppend(s: string, t: string, digits: map<string, nat>)
    ensures KeyCount(s + t, digits) == KeyCount(s, digits) + KeyCount(t, digits)
    decreases |t|
  {
    if |t| == 0 {
      assert s + t == s;
    } else {
      assert (s + t)[..|s + t| - 1] == s + t[..|t| - 1];
      KeyCountAppend(s, t[..|t| - 1], digits);
    }
  }

  /** A found rune counts each time it occurs: "100" against a map holding
      only 0 counts 2. */
  lemma KeyCountRepeats()
    ensures KeyCount("100", map["0" := 1]) == 2
  {
    var m := map["0" := 1];
    assert KeyCount("1", m) == 0 && KeyCount("0", m) == 1;
    KeyCountAppend("1", "0", m);
    KeyCountAppend("10", "0", m);
    assert "1" + "0" == "10" && "10" + "0" == "100";
  }

  /** `soulDegree`, with its literal lookups: a one-layer label is looked up
      whole and scores 7 exactly when it is a key; otherwise the degree is one
      more than the first-layer runes found, raised (as `Bump` does) exactly
      when it is at most 3 and the main layers are found: the second layer of
      a two-layer label looked up whole, the second and third layers of a
      longer label rune by rune. */
  function SoulDegree(stage: string, digits: map<string, nat>): (r: nat)
    ensures r >= 1
    ensures |Layers(stage)| == 1 ==> r == 1 || r == 7
    ensures |Layers(stage)| == 1 ==> (r == 7 <==> Layers(stage)[0] in digits)
    ensures |Layers(stage)| >= 2 ==>
      var d := 1 + KeyCount(Layers(stage)[0], digits);
      r == d || r == Bump(d)
    ensures |Layers(stage)| == 2 ==>
      var d := 1 + KeyCount(Layers(stage)[0], digits);
      (r != d <==> Layers(stage)[1] in digits && d <= 3)
    ensures |Layers(stage)| >= 3 ==>
      var d := 1 + KeyCount(Layers(stage)[0], digits);
      (r != d <==> AllKeys(Layers(stage)[1] + Layers(stage)[2], digits) && d <= 3)
    ensures |Layers(stage)[0]| <= 2 ==> r in {1, 2, 3, 4, 5, 7}
    ensures r > 7 ==> r == 1 + KeyCount(Layers(stage)[0], digits) && r <= 1 + |Layers(stage)[0]|
  {
    var layers := Layers(stage);
    if |layers| == 1 then
      if layers[0] in digits then 7 else 1
    else
      var degree := 1 + KeyCount(layers[0], digits);
      if |layers| == 2 then
        if layers[1] in digits then Bump(degree) else degree
      else if AllKeys(layers[1] + layers[2], digits) then Bump(degree)
      else degree
  }

  /** Reference rule read rune by rune throughout: one more than the number of
      first-layer runes found, raised when every rune of the next one or two
      layers is found; a lone layer scores 7 when all its runes are found. */
  function RuneDegree(layers: seq<string>, digits: map<string, nat>): nat
    requires |layers| >= 1
  {
    if |layers| == 1 then
      if AllKeys(layers[0], digits) then 7 else 1
    else
      var degree := 1 + KeyCount(layers[0], digits);
      var main := if |layers| == 2 then layers[1] else layers[1] + layers[2];
      if AllKeys(main, digits) then Bump(degree) else degree
  }

  /** The main-layer raise: it applies exactly when every rune of the main
      layers is found, and it changes the degree exactly when the first layer
      had at most two runes found. */
  lemma RuneDegreeBump(layers: seq<string>, digits: map<string, nat>)
    requires |layers| >= 2
    ensures var d := 1 + KeyCount(layers[0], digits);
      var main := if |layers| == 2 then layers[1] else layers[1] + layers[2];
      RuneDegree(layers, digits) != d <==> AllKeys(main, digits) && d <= 3
  {
  }

  lemma OneRuneNumeral(n: nat)
    requires n < 10
    ensures NatToString(n) == [NatToString(n)[0]]
  {
  }

  /** Whenever a label's whole-layer lookups are lookups of a single rune,
      `soulDegree` follows the rune-by-rune rule. */
  lemma SoulDegreeByRunes(stage: string, digits: map<string, nat>)
    requires |Layers(stage)| == 1 ==> |Layers(stage)[0]| == 1
    requires |Layers(stage)| == 2 ==> |Layers(stage)[1]| == 1
    ensures SoulDegree(stage, digits) == RuneDegree(Layers(stage), digits)
  {
    var layers := Layers(stage);
    if |layers| == 1 {
      assert layers[0] == [layers[0][0]];
    } else if |layers| == 2 {
      assert layers[1] == [layers[1][0]];
    }
  }

  /** On the labels the engine produces the whole-layer lookups coincide with
      rune-by-rune lookups: a one-layer label is one digit, and so is the
      last layer of a two-layer label. */
  lemma SoulDegreeOnLabels(sign: string, values: seq<nat>, digits: map<string, nat>)
    requires IsSign(sign)
    ensures SoulDegree(FinalNumber(sign, values), digits) == RuneDegree(Numerals(Trail(SeqSum(values))), digits)
  {
    var t := Trail(SeqSum(values));
    FinalNumberLayers(sign, values);
    if |t| == 1 {
      OneRuneNumeral(t[0]);
    } else if |t| == 2 {
      OneRuneNumeral(t[1]);
    }
    SoulDegreeByRunes(FinalNumber(sign, values), digits);
  }

  lemma {:induction false} ShortNumeral(n: nat)
    requires n < 100
    ensures |NatToString(n)| <= 2
  {
    if n >= 10 {
      assert n / 10 < 10;
    }
  }

  /** A label whose sum is below 100 has a degree among 1, 2, 3, 4, 5 and 7. */
  lemma SoulDegreeRange(sign: string, values: seq<nat>, digits: map<string, nat>)
    requires IsSign(sign) && SeqSum(values) < 100
    ensures SoulDegree(FinalNumber(sign, values), digits) in {1, 2, 3, 4, 5, 7}
  {
    FinalNumberLayers(sign, values);
    ShortNumeral(SeqSum(values));
  }

  /** Only the keys of the digit map matter, not the counts. */
  lemma SoulDegreeKeysOnly(stage: string, m1: map<string, nat>, m2: map<string, nat>)
    requires m1.Keys == m2.Keys
    ensures SoulDegree(stage, m1) == SoulDegree(stage, m2)
  {
    KeyCountKeysOnly(Layers(stage)[0], m1, m2);
  }

  lemma {:induction false} KeyCountKeysOnly(s: string, m1: map<string, nat>, m2: map<string, nat>)
    requires m1.Keys == m2.Keys
    ensures KeyCount(s, m1) == KeyCount(s, m2)
    decreases |s|
  {
    if |s| > 0 {
      KeyCountKeysOnly(s[..|s| - 1], m1, m2);
    }
  }

  /** The degree shown for a label: a 7 becomes 6 when some digit occurs more
      than twice in the date. */
  function ShownDegree(stage: string, d: TimeData): (r: nat)
    ensures d.moreThan2 ==> r != 7
    ensures !d.moreThan2 ==> r == SoulDegree(stage, d.digitMap)
    ensures r != SoulDegree(stage, d.digitMap) <==> d.moreThan2 && SoulDegree(stage, d.digitMap) == 7
    ensures r == 6 ==> SoulDegree(stage, d.digitMap) in {6, 7}
    ensures d.moreThan2 && SoulDegree(stage, d.digitMap) == 7 ==> r == 6
  {
    var degree := SoulDegree(stage, d.digitMap);
    if degree == 7 && d.moreThan2 then 6 else degree
  }

  /** `soulDegrees`, as the loop it is written as: one rendered degree per label. */
  method SoulDegrees(d: TimeData, values: seq<string>) returns (res: seq<string>)
    ensures |res| == |values|
    ensures forall i :: 0 <= i < |values| ==> res[i] == NatToString(ShownDegree(values[i], d))
    ensures d.moreThan2 ==> forall i :: 0 <= i < |values| ==> res[i] != "7"
  {
    res := [];
    for i := 0 to |values|
      invariant |res| == i
      invariant forall j :: 0 <= j < i ==> res[j] == NatToString(ShownDegree(values[j], d))
    {
      var degree := SoulDegree(values[i], d.digitMap);
      if degree == 7 && d.moreThan2 {
        degree := 6;
      }
      res := res + [NatToString(degree)];
    }
    if d.moreThan2 {
      forall i | 0 <= i < |values|
        ensures res[i] != "7"
      {
        NotSeven(ShownDegree(values[i], d));
      }
    }
  }

  lemma NotSeven(n: nat)
    requires n != 7
    ensures NatToString(n) != "7"
  {
    ParseNatToString(n);
    ParseNatToString(7);
  }

  /** Which one-rune strings are keys of a date's digit map: the digits that
      occur in the year, month or day. */
  lemma DigitMapHolds(date: Date, c: char)
    ensures [c] in NewTimeData(date).digitMap <==> IsDigitChar(c) && CharValue(c) in multiset(DateDigits(date))
  {
    var m := NewTimeData(date).digitMap;
    if IsDigitChar(c) {
      DigitCharOfCharValue(c);
      assert DigitKey(CharValue(c)) == [c];
    } else {
      assert [c] !in m;
    }
  }

  /** The digits 1, 3, 7 and 8 do not occur in 2024-09-29. */
  lemma ExampleAbsentDigits(date: Date)
    requires date.year == 2024 && date.month == 9 && date.day == 29
    ensures var ms := multiset(DateDigits(date));
      ms[1] == 0 && ms[3] == 0 && ms[7] == 0 && ms[8] == 0
  {
    DateDigitsExample(date);
    AbsentDigits([2, 0, 2, 4, 9, 2, 9]);
  }

  lemma AbsentDigits(s: seq<nat>)
    requires s == [2, 0, 2, 4, 9, 2, 9]
    ensures multiset(s)[1] == 0 && multiset(s)[3] == 0 && multiset(s)[7] == 0 && multiset(s)[8] == 0
  {
    assert forall i :: 0 <= i < |s| ==> s[i] == 0 || s[i] == 2 || s[i] == 4 || s[i] == 9;
  }

  /** The keys of the digit map of 2024-09-29 among the digits its labels use. */
  lemma ExampleKeys(date: Date)
    requires date.year == 2024 && date.month == 9 && date.day == 29
    ensures var m := NewTimeData(date).digitMap;
      && "2" in m && "9" in m
      && "1" !in m && "3" !in m && "7" !in m && "8" !in m
  {
    ExampleDigitCounts(date);
    ExampleAbsentDigits(date);
    var m := NewTimeData(date).digitMap;
    assert Count(m, DigitKey(1)) == 0 && Count(m, DigitKey(3)) == 0;
    assert Count(m, DigitKey(7)) == 0 && Count(m, DigitKey(8)) == 0;
    assert DigitKey(1) == "1" && DigitKey(3) == "3" && DigitKey(7) == "7" && DigitKey(8) == "8";
  }

  /** The solar labels of 2024-09-29 10:18: the stage inputs are the date's
      sums 8, 9 and 11 and the time's sums 1 and 9, so the labels are "+8",
      "+17/8", "+28/10/1", "+29/11/2" and "+38/11/2". Against that date's digit
      map they score 1, 1, 2, 3 and 1, and are shown as such although the
      date's flag is set, since none of them scores 7. */
  lemma ExampleDegrees(date: Date)
    requires date.year == 2024 && date.month == 9 && date.day == 29
    ensures var stages, d := StageNumbers("+", [8, 9, 11, 1, 9]), NewTimeData(date);
      && SoulDegree(stages[0], d.digitMap) == 1
      && SoulDegree(stages[1], d.digitMap) == 1
      && SoulDegree(stages[2], d.digitMap) == 2
      && SoulDegree(stages[3], d.digitMap) == 3
      && SoulDegree(stages[4], d.digitMap) == 1
      && d.moreThan2
      && ShownDegree(stages[0], d) == 1 && ShownDegree(stages[1], d) == 1
      && ShownDegree(stages[2], d) == 2 && ShownDegree(stages[3], d) == 3
      && ShownDegree(stages[4], d) == 1
  {
    var stages, d := StageNumbers("+", [8, 9, 11, 1, 9]), NewTimeData(date);
    ExampleKeys(date);
    NewTimeDataExample(date);
    StageDegrees(d.digitMap);
    ShownAsScored(stages, d);
  }

  /** Labels none of which scores 7 are shown as they score. */
  lemma ShownAsScored(stages: seq<string>, d: TimeData)
    requires |stages| == 5
    requires SoulDegree(stages[0], d.digitMap) == 1 && SoulDegree(stages[1], d.digitMap) == 1
    requires SoulDegree(stages[2], d.digitMap) == 2 && SoulDegree(stages[3], d.digitMap) == 3
    requires SoulDegree(stages[4], d.digitMap) == 1
    ensures ShownDegree(stages[0], d) == 1 && ShownDegree(stages[1], d) == 1
    ensures ShownDegree(stages[2], d) == 2 && ShownDegree(stages[3], d) == 3
    ensures ShownDegree(stages[4], d) == 1
  {
  }

  /** The degrees of the labels of the stage inputs 8, 9, 11, 1 and 9. */
  lemma StageDegrees(m: map<string, nat>)
    requires "2" in m && "9" in m
    requires "1" !in m && "3" !in m && "7" !in m && "8" !in m
    ensures var stages := StageNumbers("+", [8, 9, 11, 1, 9]);
      && SoulDegree(stages[0], m) == 1 && SoulDegree(stages[1], m) == 1
      && SoulDegree(stages[2], m) == 2 && SoulDegree(stages[3], m) == 3
      && SoulDegree(stages[4], m) == 1
  {
    LabelDegrees(m);
    ExampleStages();
  }

  /** The labels built from the stage inputs 8, 9, 11, 1 and 9. */
  lemma ExampleStages()
    ensures var stages := StageNumbers("+", [8, 9, 11, 1, 9]);
      && stages[0] == FinalNumber("+", [8])
      && stages[1] == FinalNumber("+", [8, 9])
      && stages[2] == FinalNumber("+", [8, 9, 11])
      && stages[3] == FinalNumber("+", [8, 9, 11, 1])
      && stages[4] == FinalNumber("+", [8, 9, 11, 1, 9])
  {
    var values := [8, 9, 11, 1, 9];
    assert values[..1] == [8] && values[..2] == [8, 9] && values[..3] == [8, 9, 11];
    assert values[..4] == [8, 9, 11, 1] && values[..5] == values;
  }

  /** The degrees of the labels of the prefix sums 8, 17, 28, 29 and 38. */
  lemma LabelDegrees(m: map<string, nat>)
    requires "2" in m && "9" in m
    requires "1" !in m && "3" !in m && "7" !in m && "8" !in m
    ensures SoulDegree(FinalNumber("+", [8]), m) == 1
    ensures SoulDegree(FinalNumber("+", [8, 9]), m) == 1
    ensures SoulDegree(FinalNumber("+", [8, 9, 11]), m) == 2
    ensures SoulDegree(FinalNumber("+", [8, 9, 11, 1]), m) == 3
    ensures SoulDegree(FinalNumber("+", [8, 9, 11, 1, 9]), m) == 1
  {
    RuneDegreesExample(m);
    ExampleSums();
    LabelDegree([8], 8, m);
    LabelDegree([8, 9], 17, m);
    LabelDegree([8, 9, 11], 28, m);
    LabelDegree([8, 9, 11, 1], 29, m);
    LabelDegree([8, 9, 11, 1, 9], 38, m);
  }

  lemma ExampleSums()
    ensures SeqSum([8]) == 8 && SeqSum([8, 9]) == 17 && SeqSum([8, 9, 11]) == 28
    ensures SeqSum([8, 9, 11, 1]) == 29 && SeqSum([8, 9, 11, 1, 9]) == 38
  {
    SeqSumOne(8);
    assert [8] + [9] == [8, 9] && [8, 9] + [11] == [8, 9, 11];
    assert [8, 9, 11] + [1] == [8, 9, 11, 1] && [8, 9, 11, 1] + [9] == [8, 9, 11, 1, 9];
    SeqSumSnoc([8], 9);
    SeqSumSnoc([8, 9], 11);
    SeqSumSnoc([8, 9, 11], 1);
    SeqSumSnoc([8, 9, 11, 1], 9);
  }

  /** The degree of a solar label is the rune-by-rune degree of the trail of its sum. */
  lemma LabelDegree(values: seq<nat>, n: nat, m: map<string, nat>)
    requires SeqSum(values) == n
    ensures SoulDegree(FinalNumber("+", values), m) == RuneDegree(Numerals(Trail(n)), m)
  {
    SoulDegreeOnLabels("+", values, m);
  }

  /** The rune-by-rune degrees of the trails of 8, 17, 28, 29 and 38 against
      a map holding the keys 2 and 9 but none of 1, 3, 7 and 8. */
  lemma RuneDegreesExample(m: map<string, nat>)
    requires "2" in m && "9" in m
    requires "1" !in m && "3" !in m && "7" !in m && "8" !in m
    ensures RuneDegree(Numerals(Trail(8)), m) == 1
    ensures RuneDegree(Numerals(Trail(17)), m) == 1
    ensures RuneDegree(Numerals(Trail(28)), m) == 2
    ensures RuneDegree(Numerals(Trail(29)), m) == 3
    ensures RuneDegree(Numerals(Trail(38)), m) == 1
  {
    ExampleDegreeEight(m);
    ExampleDegreeSeventeen(m);
    ExampleDegreeTwentyEight(m);
    ExampleDegreeTwentyNine(m);
    ExampleDegreeThirtyEight(m);
  }

  lemma ExampleDegreeEight(m: map<string, nat>)
    requires "8" !in m
    ensures RuneDegree(Numerals(Trail(8)), m) == 1
  {
    assert Numerals(Trail(8)) == ["8"];
  }

  lemma ExampleDegreeSeventeen(m: map<string, nat>)
    requires "1" !in m && "7" !in m && "8" !in m
    ensures RuneDegree(Numerals(Trail(17)), m) == 1
  {
    assert DigitSum(17) == 8;
    assert Numerals(Trail(17)) == ["17", "8"] by {
      assert NatToString(17) == "17";
    }
    assert KeyCount("17", m) == 0 by {
      assert "17"[..1] == "1";
    }
  }

  lemma ExampleDegreeTwentyEight(m: map<string, nat>)
    requires "2" in m && "1" !in m && "8" !in m
    ensures RuneDegree(Numerals(Trail(28)), m) == 2
  {
    assert DigitSum(28) == 10 && DigitSum(10) == 1;
    assert Numerals(Trail(28)) == ["28", "10", "1"] by {
      assert NatToString(28) == "28";
      assert NatToString(10) == "10";
    }
    assert KeyCount("28", m) == 1 by {
      assert "28"[..1] == "2";
      assert "2"[..0] == "";
    }
    assert ("10" + "1")[0] == '1';
  }

  lemma ExampleDegreeTwentyNine(m: map<string, nat>)
    requires "2" in m && "9" in m && "1" !in m
    ensures RuneDegree(Numerals(Trail(29)), m) == 3
  {
    assert DigitSum(29) == 11 && DigitSum(11) == 2;
    assert Numerals(Trail(29)) == ["29", "11", "2"] by {
      assert NatToString(29) == "29";
      assert NatToString(11) == "11";
    }
    assert KeyCount("29", m) == 2 by {
      assert "29"[..1] == "2";
      assert "2"[..0] == "";
    }
    assert ("11" + "2")[0] == '1';
  }

  lemma ExampleDegreeThirtyEight(m: map<string, nat>)
    requires "3" !in m && "8" !in m && "1" !in m
    ensures RuneDegree(Numerals(Trail(38)), m) == 1
  {
    assert DigitSum(38) == 11 && DigitSum(11) == 2;
    assert Numerals(Trail(38)) == ["38", "11", "2"] by {
      assert NatToString(38) == "38";
      assert NatToString(11) == "11";
    }
    assert KeyCount("38", m) == 0 by {
      assert "38"[..1] == "3";
    }
    assert ("11" + "2")[0] == '1';
  }

  /** The raise table on engine labels: "+12/3" against a map holding 3 rises
      from 1 to 4, "+10/1" against one holding 1 rises from 2 to 5, and
      "+11/2" against one holding 1 and 2 rises from 3 to 7. */
  lemma RaiseExamples()
    ensures SoulDegree(FinalNumber("+", [12]), map["3" := 1]) == 4
    ensures SoulDegree(FinalNumber("+", [10]), map["1" := 1]) == 5
    ensures SoulDegree(FinalNumber("+", [11]), map["1" := 1, "2" := 1]) == 7
  {
    RaiseFromOne();
    RaiseFromTwo();
    RaiseFromThree();
  }

  lemma RaiseFromOne()
    ensures SoulDegree(FinalNumber("+", [12]), map["3" := 1]) == 4
  {
    var m := map["3" := 1];
    assert "3" in m && "1" !in m && "2" !in m;
    SeqSumOne(12);
    LabelDegree([12], 12, m);
    RuneDegreeTwelve(m);
  }

  lemma RaiseFromTwo()
    ensures SoulDegree(FinalNumber("+", [10]), map["1" := 1]) == 5
  {
    var m := map["1" := 1];
    assert "1" in m && "0" !in m;
    SeqSumOne(10);
    LabelDegree([10], 10, m);
    RuneDegreeTen(m);
  }

  lemma RaiseFromThree()
    ensures SoulDegree(FinalNumber("+", [11]), map["1" := 1, "2" := 1]) == 7
  {
    var m := map["1" := 1, "2" := 1];
    assert "1" in m && "2" in m;
    SeqSumOne(11);
    LabelDegree([11], 11, m);
    RuneDegreeEleven(m);
  }

  lemma RuneDegreeTwelve(m: map<string, nat>)
    requires "3" in m && "1" !in m && "2" !in m
    ensures RuneDegree(Numerals(Trail(12)), m) == 4
  {
    assert DigitSum(12) == 3;
    assert Numerals(Trail(12)) == ["12", "3"] by {
      assert NatToString(12) == "12";
    }
    assert KeyCount("12", m) == 0 by {
      assert "12"[..1] == "1";
    }
    assert AllKeys("3", m) by {
      assert ["3"[0]] == "3";
    }
  }

  lemma RuneDegreeTen(m: map<string, nat>)
    requires "1" in m && "0" !in m
    ensures RuneDegree(Numerals(Trail(10)), m) == 5
  {
    assert DigitSum(10) == 1;
    assert Numerals(Trail(10)) == ["10", "1"] by {
      assert NatToString(10) == "10";
    }
    assert KeyCount("10", m) == 1 by {
      assert "10"[..1] == "1";
      assert "1"[..0] == "";
    }
    assert AllKeys("1", m) by {
      assert ["1"[0]] == "1";
    }
  }

  lemma RuneDegreeEleven(m: map<string, nat>)
    requires "1" in m && "2" in m
    ensures RuneDegree(Numerals(Trail(11)), m) == 7
  {
    assert DigitSum(11) == 2;
    assert Numerals(Trail(11)) == ["11", "2"] by {
      assert NatToString(11) == "11";
    }
    assert KeyCount("11", m) == 2 by {
      assert "11"[..1] == "1";
      assert "1"[..0] == "";
    }
    assert AllKeys("2", m) by {
      assert ["2"[0]] == "2";
    }
  }

  /** A lone layer is looked up whole: "12" is not a key of a map holding 1
      and 2, so it scores 1, where the rune-by-rune rule would give 7. */
  lemma WholeLayerLookup()
    ensures var m := map["1" := 1, "2" := 1];
      SoulDegree("12", m) == 1 && RuneDegree(Layers("12"), m) == 7
  {
    var m := map["1" := 1, "2" := 1];
    assert Layers("12") == ["12"];
    assert AllKeys("12", m) by {
      assert "12"[0] == '1' && "12"[1] == '2';
      assert ['1'] == "1" && ['2'] == "2";
    }
  }
}
