/** One page of the chart as `generate` computes it from the solar and the
    lunar reading of a birth date: the stage labels and soul degrees of both
    tracks, the yearly blocks, the month and day columns, and the name digits.
    Only the values are modelled; where they are drawn is not. */
module Chart {
  import opened Decimal
  import opened Trails
  import opened Stages
  import opened DateDigest
  import opened Names
  import opened Soul
  import opened Grid

  /** Five stage labels read back: each carries the sign, leads with the sum of
      the first `i + 1` inputs and ends in that sum's digital root. */
  predicate LabelsRead(stages: seq<string>, sign: string, inputs: seq<nat>)
    requires |inputs| == 5
  {
    && |stages| == 5
    && forall i :: 0 <= i < 5 ==>
      && |sign| < |stages[i]| && stages[i][..|sign|] == sign
      && LeadValue(stages[i]) == SeqSum(inputs[..i + 1])
      && ReducedValue(stages[i]) == DigitalRoot(SeqSum(inputs[..i + 1]))
  }

  /** The entry of number `n` in a month or day column, read back: its title
      (in place `n - 1`) is `n`, and its cell leads with the base sum plus the
      digit sum of `n` and ends in the digital root of the base sum plus `n`. */
  predicate EntryRead(titles: seq<string>, cells: seq<string>, base: seq<nat>, n: nat)
    requires 1 <= n <= |cells| && n <= |titles|
  {
    && ParseDecimal(titles[n - 1]) == n
    && LeadValue(cells[n - 1]) == SeqSum(base) + DigitSum(n)
    && ReducedValue(cells[n - 1]) == DigitalRoot(SeqSum(base) + n)
  }

  /** A month or day column of `count` cells, read back entry by entry. */
  predicate ColumnRead(titles: seq<string>, cells: seq<string>, base: seq<nat>, count: nat) {
    && |cells| == count && count <= |titles|
    && forall n: nat :: 1 <= n <= count ==> EntryRead(titles, cells, base, n)
  }

  lemma ColumnReadBack(titles: seq<string>, cells: seq<string>, sign: string, base: seq<nat>, count: nat)
    requires IsSign(sign) && |cells| == count <= |titles|
    requires RunOf(titles, NatToString, 1) && RunOf(cells, CellOf(sign, base), 1)
    ensures ColumnRead(titles, cells, base, count)
  {
    forall n: nat | 1 <= n <= count
      ensures EntryRead(titles, cells, base, n)
    {
      ColumnEntry(titles, cells, sign, base, n - 1, n);
    }
  }

  lemma ColumnEntry(titles: seq<string>, cells: seq<string>, sign: string, base: seq<nat>, k: nat, n: nat)
    requires IsSign(sign) && k < |cells| <= |titles| && n == k + 1
    requires RunOf(titles, NatToString, 1) && RunOf(cells, CellOf(sign, base), 1)
    ensures EntryRead(titles, cells, base, n)
  {
    NumeralEntry(titles, 1, k, n);
    CellEntry(cells, sign, base, 1, k, n);
  }

  /** The inputs of a track's stage labels: that track's year, month and day
      sums, then the digit sums of the hour and minute of the SOLAR time, which
      the lunar track reuses. */
  function StageInputs(track: TimeData, solar: TimeData): (r: seq<nat>)
    ensures |r| == 5
  {
    [track.sums.year, track.sums.month, track.sums.day, DigitSum(solar.time.hour), DigitSum(solar.time.minute)]
  }

  /** `drawDegreeTables`: the stage labels of both tracks and their soul degrees. */
  method DegreeTables(solar: TimeData, lunar: TimeData)
    returns (solarStages: seq<string>, lunarStages: seq<string>, solarDegrees: seq<string>, lunarDegrees: seq<string>)
    ensures solarStages == StageNumbers("+", StageInputs(solar, solar))
    ensures lunarStages == StageNumbers("-", StageInputs(lunar, solar))
    ensures LabelsRead(solarStages, "+", StageInputs(solar, solar))
    ensures LabelsRead(lunarStages, "-", StageInputs(lunar, solar))
    ensures |solarDegrees| == 5 && forall i :: 0 <= i < 5 ==> solarDegrees[i] == NatToString(ShownDegree(solarStages[i], solar))
    ensures |lunarDegrees| == 5 && forall i :: 0 <= i < 5 ==> lunarDegrees[i] == NatToString(ShownDegree(lunarStages[i], lunar))
  {
    var sumHr := SumDigits(solar.time.hour).0;
    var sumMin := SumDigits(solar.time.minute).0;
    var solars := [solar.sums.year, solar.sums.month, solar.sums.day, sumHr, sumMin];
    var lunars := [lunar.sums.year, lunar.sums.month, lunar.sums.day, sumHr, sumMin];
    assert solars == StageInputs(solar, solar) && lunars == StageInputs(lunar, solar);
    TrackSigns();
    solarStages, solarDegrees := TrackDegrees("+", solars, solar);
    lunarStages, lunarDegrees := TrackDegrees("-", lunars, lunar);
  }

  lemma TrackSigns()
    ensures IsSign("+") && IsSign("-")
  {
  }

  /** One track of `drawDegreeTables`: its five stage labels and their degrees. */
  method TrackDegrees(sign: string, inputs: seq<nat>, d: TimeData) returns (stages: seq<string>, degrees: seq<string>)
    requires IsSign(sign) && |inputs| == 5
    ensures stages == StageNumbers(sign, inputs)
    ensures LabelsRead(stages, sign, inputs)
    ensures |degrees| == 5 && forall i :: 0 <= i < 5 ==> degrees[i] == NatToString(ShownDegree(stages[i], d))
  {
    stages := StageNumbers(sign, inputs);
    degrees := SoulDegrees(d, stages);
  }

  /** `drawMonthDayTable` over the two tracks: `total` titled columns, the
      lunar one cut to 30 cells. */
  method MonthDayTable(total: nat, sumSolars: seq<nat>, sumLunars: seq<nat>)
    returns (titles: seq<string>, solars: seq<string>, lunars: seq<string>)
    ensures |titles| == |solars| == total
    ensures |lunars| == if total > 30 then 30 else total
    ensures RunOf(titles, NatToString, 1)
    ensures RunOf(solars, CellOf("+", sumSolars), 1)
    ensures RunOf(lunars, CellOf("-", sumLunars), 1)
    ensures ColumnRead(titles, solars, sumSolars, total)
    ensures ColumnRead(titles, lunars, sumLunars, if total > 30 then 30 else total)
  {
    titles, solars, lunars := MonthDayColumns(sumSolars, sumLunars, total);
    ColumnReadBack(titles, solars, "+", sumSolars, total);
    ColumnReadBack(titles, lunars, "-", sumLunars, |lunars|);
  }

  /** The values of one chart page. */
  datatype Page = Page(
    solarStages: seq<string>, lunarStages: seq<string>,
    solarDegrees: seq<string>, lunarDegrees: seq<string>,
    yearly: seq<YearRows>,
    monthTitles: seq<string>, monthSolars: seq<string>, monthLunars: seq<string>,
    dayTitles: seq<string>, daySolars: seq<string>, dayLunars: seq<string>,
    nameDigits: string, nickNameDigits: string)

  /** `generate`: digests both readings of the date, then computes the degree
      tables, the yearly blocks from the solar calendar year with the month and
      day sums of each track, the month table (year and day sums, 12 columns),
      the day table (year and month sums, 31 columns, 30 lunar cells) and the
      digits of the name and the nickname. */
  method Generate(name: string, nickName: string, solarDate: Date, lunarDate: Date) returns (p: Page)
    ensures var solar, lunar := NewTimeData(solarDate), NewTimeData(lunarDate);
      && p.solarStages == StageNumbers("+", StageInputs(solar, solar))
      && p.lunarStages == StageNumbers("-", StageInputs(lunar, solar))
      && LabelsRead(p.solarStages, "+", StageInputs(solar, solar))
      && LabelsRead(p.lunarStages, "-", StageInputs(lunar, solar))
      && |p.solarDegrees| == 5 && |p.lunarDegrees| == 5
      && (forall i :: 0 <= i < 5 ==> p.solarDegrees[i] == NatToString(ShownDegree(p.solarStages[i], solar)))
      && (forall i :: 0 <= i < 5 ==> p.lunarDegrees[i] == NatToString(ShownDegree(p.lunarStages[i], lunar)))
    ensures |p.yearly| == 11
    ensures BlocksFrom(p.yearly, FullBlock(
      Track("+", [DigitSum(solarDate.month), DigitSum(solarDate.day)]),
      Track("-", [DigitSum(lunarDate.month), DigitSum(lunarDate.day)])), 1, solarDate.year)
    ensures |p.monthTitles| == 12 && |p.dayTitles| == 31
    ensures RunOf(p.monthTitles, NatToString, 1) && RunOf(p.dayTitles, NatToString, 1)
    ensures RunOf(p.monthSolars, CellOf("+", [DigitSum(solarDate.year), DigitSum(solarDate.day)]), 1)
    ensures RunOf(p.monthLunars, CellOf("-", [DigitSum(lunarDate.year), DigitSum(lunarDate.day)]), 1)
    ensures RunOf(p.daySolars, CellOf("+", [DigitSum(solarDate.year), DigitSum(solarDate.month)]), 1)
    ensures RunOf(p.dayLunars, CellOf("-", [DigitSum(lunarDate.year), DigitSum(lunarDate.month)]), 1)
    ensures ColumnRead(p.monthTitles, p.monthSolars, [DigitSum(solarDate.year), DigitSum(solarDate.day)], 12)
    ensures ColumnRead(p.monthTitles, p.monthLunars, [DigitSum(lunarDate.year), DigitSum(lunarDate.day)], 12)
    ensures ColumnRead(p.dayTitles, p.daySolars, [DigitSum(solarDate.year), DigitSum(solarDate.month)], 31)
    ensures ColumnRead(p.dayTitles, p.dayLunars, [DigitSum(lunarDate.year), DigitSum(lunarDate.month)], 30)
    ensures p.nameDigits == FinalNumber("", [NameValue(name)])
    ensures p.nickNameDigits == FinalNumber("", [NameValue(nickName)])
  {
    var solar := NewTimeData(solarDate);
    var lunar := NewTimeData(lunarDate);
    var solarStages, lunarStages, solarDegrees, lunarDegrees := DegreeTables(solar, lunar);
    var yearly := YearlyBlocks(solarDate.year, [solar.sums.month, solar.sums.day], [lunar.sums.month, lunar.sums.day]);
    var nameDigits := CharsToDigits(name);
    var nickNameDigits := CharsToDigits(nickName);
    var monthTitles, monthSolars, monthLunars := MonthDayTable(12, [solar.sums.year, solar.sums.day], [lunar.sums.year, lunar.sums.day]);
    var dayTitles, daySolars, dayLunars := MonthDayTable(31, [solar.sums.year, solar.sums.month], [lunar.sums.year, lunar.sums.month]);
    p := Page(solarStages, lunarStages, solarDegrees, lunarDegrees, yearly,
      monthTitles, monthSolars, monthLunars, dayTitles, daySolars, dayLunars,
      nameDigits, nickNameDigits);
  }
}
