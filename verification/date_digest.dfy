/** `newTimeData`: the one-level digit sums of a date's year, month and day,
    the count of every decimal digit they are written with, and the
    `MoreThan2` flag. */
module DateDigest {
  import opened Decimal

  /** A calendar date and time of day, solar or lunar, as plain numbers. */
  datatype Date = Date(year: nat, month: nat, day: nat, hour: nat, minute: nat)

  /** One level of digit sum of year, month and day. */
  datatype SumData = SumData(year: nat, month: nat, day: nat)

  datatype TimeData = TimeData(sums: SumData, time: Date, digitMap: map<string, nat>, moreThan2: bool)

  /** The key a digit is counted under: its `fmt.Sprint` rendering, one character. */
  function DigitKey(d: nat): (k: string)
    requires d < 10
    ensures k == NatToString(d)
  {
    [DigitChar(d)]
  }

  /** The count stored under `k`, 0 when `k` is absent. */
  function Count(m: map<string, nat>, k: string): nat {
    if k in m then m[k] else 0
  }

  /** The keys of a list of digits, in order. */
  function DigitKeys(ds: seq<nat>): (r: seq<string>)
    requires forall i :: 0 <= i < |ds| ==> ds[i] < 10
    ensures |r| == |ds|
    ensures forall i :: 0 <= i < |ds| ==> r[i] == DigitKey(ds[i])
  {
    seq(|ds|, i requires 0 <= i < |ds| => DigitKey(ds[i]))
  }

  /** The `digits[key]++` loop: after it, each key seen maps to the number of
      times it was seen, and no other key is present. */
  function Tally(keys: seq<string>): (m: map<string, nat>)
    ensures forall k :: k in m <==> k in keys
    ensures forall k :: k in m ==> m[k] == multiset(keys)[k] && m[k] >= 1
  {
    if |keys| == 0 then map[]
    else
      var init := keys[..|keys| - 1];
      var k := keys[|keys| - 1];
      var m := Tally(init);
      assert keys == init + [k];
      assert multiset(keys) == multiset(init) + multiset{k};
      m[k := Count(m, k) + 1]
  }

  /** All decimal digits of the date's year, month and day (no leading zeros). */
  function DateDigits(date: Date): seq<nat> {
    Digits(date.year) + Digits(date.month) + Digits(date.day)
  }

  /** Some key is counted more than twice. */
  predicate MoreThan2(m: map<string, nat>) {
    exists k :: k in m && m[k] > 2
  }

  /** `newTimeData` over a plain date. */
  function NewTimeData(date: Date): (r: TimeData)
    ensures r.time == date
    ensures r.sums == SumData(DigitSum(date.year), DigitSum(date.month), DigitSum(date.day))
    ensures forall k :: k in r.digitMap ==> r.digitMap[k] >= 1 && |k| == 1 && IsDigitChar(k[0])
    ensures forall d :: 0 <= d < 10 ==> Count(r.digitMap, DigitKey(d)) == multiset(DateDigits(date))[d]
    ensures r.moreThan2 <==> exists d :: 0 <= d < 10 && multiset(DateDigits(date))[d] > 2
  {
    var (sumYr, digitYr) := SumDigits(date.year);
    var (sumMon, digitMon) := SumDigits(date.month);
    var (sumDay, digitDay) := SumDigits(date.day);
    var all := digitYr + digitMon + digitDay;
    DateDigitsAreDigits(date);
    assert all == DateDigits(date);
    var digits := Tally(DigitKeys(all));
    DigitMapKeys(all);
    DigitMapCounts(all);
    DigitMapMoreThan2(all);
    TimeData(SumData(sumYr, sumMon, sumDay), date, digits, MoreThan2(digits))
  }

  lemma DigitKeyInjective(a: nat, b: nat)
    requires a < 10 && b < 10
    requires DigitKey(a) == DigitKey(b)
    ensures a == b
  {
    assert DigitKey(a)[0] == DigitKey(b)[0];
  }

  /** Counting keys is counting digits, because distinct digits have distinct keys. */
  lemma {:induction false} KeyCountIsDigitCount(ds: seq<nat>, d: nat)
    requires forall i :: 0 <= i < |ds| ==> ds[i] < 10
    requires d < 10
    ensures multiset(DigitKeys(ds))[DigitKey(d)] == multiset(ds)[d]
    decreases |ds|
  {
    if |ds| > 0 {
      var init := ds[..|ds| - 1];
      var x := ds[|ds| - 1];
      KeyCountIsDigitCount(init, d);
      assert ds == init + [x];
      assert DigitKeys(ds) == DigitKeys(init) + [DigitKey(x)];
      if DigitKey(x) == DigitKey(d) {
        DigitKeyInjective(x, d);
      }
    }
  }

  /** Every key of the digit map is a one-digit string counted at least once. */
  lemma DigitMapKeys(ds: seq<nat>)
    requires forall i :: 0 <= i < |ds| ==> ds[i] < 10
    ensures var m := Tally(DigitKeys(ds));
      forall k :: k in m ==> m[k] >= 1 && |k| == 1 && IsDigitChar(k[0])
  {
    var keys := DigitKeys(ds);
    forall k | k in Tally(keys)
      ensures |k| == 1 && IsDigitChar(k[0])
    {
      var i :| 0 <= i < |keys| && keys[i] == k;
    }
  }

  /** The digit map counts every digit exactly as often as it occurs. */
  lemma DigitMapCounts(ds: seq<nat>)
    requires forall i :: 0 <= i < |ds| ==> ds[i] < 10
    ensures forall d :: 0 <= d < 10 ==> Count(Tally(DigitKeys(ds)), DigitKey(d)) == multiset(ds)[d]
  {
    forall d | 0 <= d < 10
      ensures Count(Tally(DigitKeys(ds)), DigitKey(d)) == multiset(ds)[d]
    {
      KeyCountIsDigitCount(ds, d);
    }
  }

  /** The flag holds exactly when some digit occurs more than twice. */
  lemma DigitMapMoreThan2(ds: seq<nat>)
    requires forall i :: 0 <= i < |ds| ==> ds[i] < 10
    ensures MoreThan2(Tally(DigitKeys(ds))) <==> exists d :: 0 <= d < 10 && multiset(ds)[d] > 2
  {
    var keys := DigitKeys(ds);
    var m := Tally(keys);
    if MoreThan2(m) {
      var k :| k in m && m[k] > 2;
      var i :| 0 <= i < |keys| && keys[i] == k;
      KeyCountIsDigitCount(ds, ds[i]);
      assert multiset(ds)[ds[i]] > 2;
    }
    if exists d :: 0 <= d < 10 && multiset(ds)[d] > 2 {
      var d :| 0 <= d < 10 && multiset(ds)[d] > 2;
      KeyCountIsDigitCount(ds, d);
      assert DigitKey(d) in multiset(keys);
      assert DigitKey(d) in m;
    }
  }

  /** How many of the digits `from`..9 a multiset holds, with repetition. */
  function DigitTotal(ms: multiset<nat>, from: nat): nat
    requires from <= 10
    decreases 10 - from
  {
    if from == 10 then 0 else ms[from] + DigitTotal(ms, from + 1)
  }

  lemma {:induction false} DigitTotalAdd(ms: multiset<nat>, x: nat, from: nat)
    requires x < 10 && from <= 10
    ensures DigitTotal(ms + multiset{x}, from) == DigitTotal(ms, from) + (if from <= x then 1 else 0)
    decreases 10 - from
  {
    if from < 10 {
      DigitTotalAdd(ms, x, from + 1);
    }
  }

  /** A list of digits holds, summed over the ten digits, as many digits as its length. */
  lemma {:induction false} DigitTotalIsLength(ds: seq<nat>)
    requires forall i :: 0 <= i < |ds| ==> ds[i] < 10
    ensures DigitTotal(multiset(ds), 0) == |ds|
    decreases |ds|
  {
    if |ds| > 0 {
      var init := ds[..|ds| - 1];
      DigitTotalIsLength(init);
      assert ds == init + [ds[|ds| - 1]];
      DigitTotalAdd(multiset(init), ds[|ds| - 1], 0);
    }
  }

  /** The sum over the ten digit keys of the counts stored under them. */
  function KeyTotal(m: map<string, nat>, from: nat): nat
    requires from <= 10
    decreases 10 - from
  {
    if from == 10 then 0 else Count(m, DigitKey(from)) + KeyTotal(m, from + 1)
  }

  lemma {:induction false} KeyTotalIsDigitTotal(m: map<string, nat>, ms: multiset<nat>, from: nat)
    requires from <= 10
    requires forall d :: 0 <= d < 10 ==> Count(m, DigitKey(d)) == ms[d]
    ensures KeyTotal(m, from) == DigitTotal(ms, from)
    decreases 10 - from
  {
    if from < 10 {
      KeyTotalIsDigitTotal(m, ms, from + 1);
    }
  }

  /** The counts of the digit map add up to the number of digits the date is written with. */
  lemma DigitCountsSumToDigitTotal(date: Date)
    ensures KeyTotal(NewTimeData(date).digitMap, 0)
         == |Digits(date.year)| + |Digits(date.month)| + |Digits(date.day)|
  {
    var ds := DateDigits(date);
    var m := NewTimeData(date).digitMap;
    DateDigitsAreDigits(date);
    KeyTotalIsDigitTotal(m, multiset(ds), 0);
    DigitTotalIsLength(ds);
  }

  lemma DateDigitsAreDigits(date: Date)
    ensures forall i :: 0 <= i < |DateDigits(date)| ==> DateDigits(date)[i] < 10
    ensures |DateDigits(date)| == |Digits(date.year)| + |Digits(date.month)| + |Digits(date.day)|
  {
    var a, b, c := Digits(date.year), Digits(date.month), Digits(date.day);
    forall i | 0 <= i < |a + b + c|
      ensures (a + b + c)[i] < 10
    {
      if i < |a| {
        assert (a + b + c)[i] == a[i];
      } else if i < |a| + |b| {
        assert (a + b + c)[i] == b[i - |a|];
      } else {
        assert (a + b + c)[i] == c[i - |a| - |b|];
      }
    }
  }

  /** 2024-09-29 (any time of day): sums 8, 9 and 11 (one level only),
      digits {2:3, 0:1, 4:1, 9:2}, flag set. */
  lemma NewTimeDataExample(date: Date)
    requires date.year == 2024 && date.month == 9 && date.day == 29
    ensures var r := NewTimeData(date);
      && r.sums == SumData(8, 9, 11)
      && Count(r.digitMap, "2") == 3 && Count(r.digitMap, "0") == 1
      && Count(r.digitMap, "4") == 1 && Count(r.digitMap, "9") == 2
      && r.moreThan2
  {
    assert DigitSum(2024) == 8 by {
      assert DigitSum(202) == 4;
    }
    assert DigitSum(29) == 11;
    ExampleDigitCounts(date);
  }

  lemma ExampleDigitCounts(date: Date)
    requires date.year == 2024 && date.month == 9 && date.day == 29
    ensures var ms := multiset(DateDigits(date));
      ms[2] == 3 && ms[0] == 1 && ms[4] == 1 && ms[9] == 2
    ensures DigitKey(2) == "2" && DigitKey(0) == "0" && DigitKey(4) == "4" && DigitKey(9) == "9"
  {
    DateDigitsExample(date);
    ExampleMultiset();
  }

  lemma ExampleMultiset()
    ensures var ms := multiset([2, 0, 2, 4, 9, 2, 9]);
      ms[2] == 3 && ms[0] == 1 && ms[4] == 1 && ms[9] == 2
  {
  }

  lemma DateDigitsExample(date: Date)
    requires date.year == 2024 && date.month == 9 && date.day == 29
    ensures DateDigits(date) == [2, 0, 2, 4, 9, 2, 9]
  {
    assert Digits(2024) == [2, 0, 2, 4] by {
      assert Digits(202) == [2, 0, 2] by {
        assert Digits(20) == [2, 0];
      }
    }
    assert Digits(29) == [2, 9];
  }
}
