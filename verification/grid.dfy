/** The flowing-year, flowing-month and flowing-day grids: each cell is a
    stage label of a fixed base plus the one-level digit sum of the cell's
    year, month or day number. */
module Grid {
  import opened Decimal
  import opened Text
  import opened Trails
  import opened Stages

  /** The grid cell for number `n`: the label of `base` followed by the
      one-level digit sum of `n`. */
  function Cell(sign: string, base: seq<nat>, n: nat): string {
    FinalNumber(sign, base + [DigitSum(n)])
  }

  /** The label the loops build from a digit sum `d` of `n` is the cell of `n`. */
  lemma IsCell(sign: string, base: seq<nat>, n: nat, d: nat)
    requires d == DigitSum(n)
    ensures FinalNumber(sign, base + [d]) == Cell(sign, base, n)
  {
  }

  lemma {:induction false} AddNines(y: nat, q: nat)
    ensures (y + 9 * q) % 9 == y % 9
    decreases q
  {
    if q > 0 {
      AddNines(y, q - 1);
      assert y + 9 * q == (y + 9 * (q - 1)) + 9;
    }
  }

  /** Adding a number or its digit sum to a base gives the same digital root. */
  lemma DigitalRootShift(a: nat, x: nat)
    ensures DigitalRoot(a + DigitSum(x)) == DigitalRoot(a + x)
  {
    var s := DigitSum(x);
    DigitSumMod9(x);
    var r := x % 9;
    assert s == 9 * (s / 9) + r;
    assert x == 9 * (x / 9) + r;
    AddNines(a + r, s / 9);
    AddNines(a + r, x / 9);
  }

  /** The label of a base followed by one more value. */
  lemma ExtendedLabel(sign: string, base: seq<nat>, x: nat)
    requires IsSign(sign)
    ensures LeadValue(FinalNumber(sign, base + [x])) == SeqSum(base) + x
    ensures ReducedValue(FinalNumber(sign, base + [x])) == DigitalRoot(SeqSum(base) + x)
  {
    SeqSumSnoc(base, x);
    FinalNumberReadBack(sign, base + [x]);
  }

  lemma ShiftedRoot(base: seq<nat>, n: nat)
    ensures DigitalRoot(SeqSum(base) + DigitSum(n)) == DigitalRoot(SeqSum(base) + n)
  {
    DigitalRootShift(SeqSum(base), n);
  }

  /** Reading a cell back: it leads with the base sum plus the digit sum of
      its number, and it reduces to the digital root of the base sum plus the
      number itself. */
  lemma CellReadBack(sign: string, base: seq<nat>, n: nat)
    requires IsSign(sign)
    ensures LeadValue(Cell(sign, base, n)) == SeqSum(base) + DigitSum(n)
    ensures ReducedValue(Cell(sign, base, n)) == DigitalRoot(SeqSum(base) + n)
  {
    ExtendedLabel(sign, base, DigitSum(n));
    ShiftedRoot(base, n);
  }

  lemma RootPeriod(n: nat)
    requires n > 0
    ensures DigitalRoot(n + 9) == DigitalRoot(n)
  {
    AddNines(n, 1);
  }

  /** Cells nine numbers apart reduce to the same digit (unless the first
      one's base sum and number are both zero). */
  lemma CellPeriod(sign: string, base: seq<nat>, n: nat)
    requires IsSign(sign)
    requires SeqSum(base) + n > 0
    ensures ReducedValue(Cell(sign, base, n)) == ReducedValue(Cell(sign, base, n + 9))
  {
    CellReadBack(sign, base, n);
    CellReadBack(sign, base, n + 9);
    RootPeriod(SeqSum(base) + n);
  }

  /** `row` lists `f(first)`, `f(first + 1)`, ... in order. */
  predicate RunOf(row: seq<string>, f: nat -> string, first: nat)
    decreases |row|
  {
    |row| == 0 || (row[0] == f(first) && RunOf(row[1..], f, first + 1))
  }

  /** The cells of one track, as a function of the number. */
  function CellOf(sign: string, base: seq<nat>): nat -> string {
    (n: nat) => Cell(sign, base, n)
  }

  /** Appending the entry of the next number extends a run. */
  lemma {:induction false} PushRun(row: seq<string>, f: nat -> string, first: nat, n: nat, x: string)
    requires RunOf(row, f, first) && n == first + |row| && x == f(n)
    ensures RunOf(row + [x], f, first)
    decreases |row|
  {
    if |row| > 0 {
      assert (row + [x])[1..] == row[1..] + [x];
      PushRun(row[1..], f, first + 1, n, x);
    }
  }

  lemma TailAppend(row: seq<string>, x: string)
    requires |row| >= 1
    ensures (row + [x])[1..] == row[1..] + [x]
  {
  }

  lemma TailAt(row: seq<string>, k: nat)
    requires k + 1 < |row|
    ensures row[1..][k] == row[k + 1]
  {
  }

  /** Entry `k` of a run is the entry of `n = first + k`. */
  lemma {:induction false} RunAt(row: seq<string>, f: nat -> string, first: nat, k: nat, n: nat)
    requires RunOf(row, f, first) && k < |row| && n == first + k
    ensures row[k] == f(n)
    decreases k
  {
    if k > 0 {
      RunAt(row[1..], f, first + 1, k - 1, n);
    }
  }

  /** A prefix of a run is a run. */
  lemma {:induction false} TruncateRun(row: seq<string>, f: nat -> string, first: nat, m: nat)
    requires RunOf(row, f, first) && m <= |row|
    ensures RunOf(row[..m], f, first)
    decreases m
  {
    if m > 0 {
      assert row[..m][1..] == row[1..][..m - 1];
      TruncateRun(row[1..], f, first + 1, m - 1);
    }
  }

  /** A numeral of a run reads back as its number. */
  lemma NumeralEntry(row: seq<string>, first: nat, k: nat, n: nat)
    requires RunOf(row, NatToString, first) && k < |row| && n == first + k
    ensures IsCanonical(row[k]) && ParseDecimal(row[k]) == n
  {
    RunAt(row, NatToString, first, k, n);
    ParseNatToString(n);
  }

  /** A cell of a run, read back. */
  lemma CellEntry(row: seq<string>, sign: string, base: seq<nat>, first: nat, k: nat, n: nat)
    requires RunOf(row, CellOf(sign, base), first) && k < |row| && n == first + k
    requires IsSign(sign)
    ensures LeadValue(row[k]) == SeqSum(base) + DigitSum(n)
    ensures ReducedValue(row[k]) == DigitalRoot(SeqSum(base) + n)
  {
    RunAt(row, CellOf(sign, base), first, k, n);
    CellReadBack(sign, base, n);
  }

  /** The month/day grid columns of `drawMonthDayTable`, as the loop computes
      them: column `k` is titled `k + 1` and holds the cells of `k + 1`; the
      lunar column keeps at most 30 cells. */
  method MonthDayColumns(sumSolars: seq<nat>, sumLunars: seq<nat>, total: nat)
    returns (titles: seq<string>, solars: seq<string>, lunars: seq<string>)
    ensures |titles| == |solars| == total
    ensures |lunars| == if total > 30 then 30 else total
    ensures RunOf(titles, NatToString, 1)
    ensures RunOf(solars, CellOf("+", sumSolars), 1)
    ensures RunOf(lunars, CellOf("-", sumLunars), 1)
  {
    titles, solars, lunars := TrackColumns(total, Track("+", sumSolars), Track("-", sumLunars));
  }

  /** The loop of `drawMonthDayTable` over a solar and a lunar track. */
  method TrackColumns(total: nat, solar: Track, lunar: Track)
    returns (titles: seq<string>, solars: seq<string>, lunars: seq<string>)
    ensures |titles| == |solars| == total
    ensures |lunars| == if total > 30 then 30 else total
    ensures RunOf(titles, NatToString, 1)
    ensures RunOf(solars, CellOf(solar.sign, solar.base), 1)
    ensures RunOf(lunars, CellOf(lunar.sign, lunar.base), 1)
  {
    titles, solars, lunars := FullColumns(total, solar, lunar);
    if |lunars| > 30 {
      TruncateRun(lunars, CellOf(lunar.sign, lunar.base), 1, 30);
      lunars := lunars[..30];
    }
  }

  /** The three columns before the lunar one is cut. */
  method FullColumns(total: nat, solar: Track, lunar: Track)
    returns (titles: seq<string>, solars: seq<string>, lunars: seq<string>)
    ensures |titles| == |solars| == |lunars| == total
    ensures RunOf(titles, NatToString, 1)
    ensures RunOf(solars, CellOf(solar.sign, solar.base), 1)
    ensures RunOf(lunars, CellOf(lunar.sign, lunar.base), 1)
  {
    titles, solars, lunars := [], [], [];
    for i := 1 to total + 1
      invariant |titles| == |solars| == |lunars| == i - 1
      invariant RunOf(titles, NatToString, 1)
      invariant RunOf(solars, CellOf(solar.sign, solar.base), 1)
      invariant RunOf(lunars, CellOf(lunar.sign, lunar.base), 1)
    {
      var s, l := TrackCells(i, solar, lunar);
      PushRun(titles, NatToString, 1, i, NatToString(i));
      PushRun(solars, CellOf(solar.sign, solar.base), 1, i, s);
      PushRun(lunars, CellOf(lunar.sign, lunar.base), 1, i, l);
      titles := titles + [NatToString(i)];
      solars := solars + [s];
      lunars := lunars + [l];
    }
  }

  /** The two labels of number `n`, as the loops compute them: one digit sum of
      `n`, appended to each track's base. */
  method TrackCells(n: nat, solar: Track, lunar: Track) returns (s: string, l: string)
    ensures s == CellOf(solar.sign, solar.base)(n) && l == CellOf(lunar.sign, lunar.base)(n)
  {
    var sumTarget := SumDigits(n).0;
    s, l := FinalNumber(solar.sign, solar.base + [sumTarget]), FinalNumber(lunar.sign, lunar.base + [sumTarget]);
    IsCell(solar.sign, solar.base, n, sumTarget);
    IsCell(lunar.sign, lunar.base, n, sumTarget);
  }

  /** Headings of the four rows of a yearly block. */
  const AgeHeading: string := "歲次"
  const YearHeading: string := "西元"
  const SolarHeading: string := "主秘術"
  const LunarHeading: string := "陰曆"

  /** The four rows of a yearly block: ages, calendar years, solar labels and
      lunar labels, each led by its heading. */
  datatype YearRows = YearRows(ages: seq<string>, years: seq<string>, solars: seq<string>, lunars: seq<string>)

  /** One track of labels: its sign and the values its labels start from. */
  datatype Track = Track(sign: string, base: seq<nat>)

  /** A yearly block of `count` entries whose first entry is age `age` over
      calendar year `year`: every row starts with its heading, ages and years
      count up from there, and both label rows add the digit sum of each
      year to their track's base. */
  predicate YearBlock(r: YearRows, age: nat, year: nat, count: nat, solar: Track, lunar: Track) {
    && |r.ages| == |r.years| == |r.solars| == |r.lunars| == count + 1
    && r.ages[0] == AgeHeading && r.years[0] == YearHeading
    && r.solars[0] == SolarHeading && r.lunars[0] == LunarHeading
    && RunOf(r.ages[1..], NatToString, age)
    && RunOf(r.years[1..], NatToString, year)
    && RunOf(r.solars[1..], CellOf(solar.sign, solar.base), year)
    && RunOf(r.lunars[1..], CellOf(lunar.sign, lunar.base), year)
  }

  /** The rows a block starts from: the four headings alone. */
  const Headings := YearRows([AgeHeading], [YearHeading], [SolarHeading], [LunarHeading])

  lemma HeadingsBlock(age: nat, year: nat, solar: Track, lunar: Track)
    ensures YearBlock(Headings, age, year, 0, solar, lunar)
  {
    assert Headings.ages[1..] == [] && Headings.years[1..] == [];
    assert Headings.solars[1..] == [] && Headings.lunars[1..] == [];
  }

  /** Appending the next entry to every row of a block extends it by one. */
  lemma PushYear(r: YearRows, age: nat, year: nat, count: nat, solar: Track, lunar: Track, a: nat, n: nat, s: string, l: string)
    requires YearBlock(r, age, year, count, solar, lunar)
    requires a == age + count && n == year + count
    requires s == Cell(solar.sign, solar.base, n) && l == Cell(lunar.sign, lunar.base, n)
    ensures YearBlock(YearRows(r.ages + [NatToString(a)], r.years + [NatToString(n)], r.solars + [s], r.lunars + [l]),
      age, year, count + 1, solar, lunar)
  {
    TailAppend(r.ages, NatToString(a));
    TailAppend(r.years, NatToString(n));
    TailAppend(r.solars, s);
    TailAppend(r.lunars, l);
    PushRun(r.ages[1..], NatToString, age, a, NatToString(a));
    PushRun(r.years[1..], NatToString, year, n, NatToString(n));
    PushRun(r.solars[1..], CellOf(solar.sign, solar.base), year, n, s);
    PushRun(r.lunars[1..], CellOf(lunar.sign, lunar.base), year, n, l);
  }

  /** `drawYearlyTables`, as the loop it is written as: ages 1 to 100 are
      computed, and a block is drawn each time nine entries have gathered.
      Block `b` shows ages `9 * b + 1` to `9 * b + 9`; eleven blocks are drawn,
      and the hundredth age, left in the last block, is never drawn. */
  method YearlyBlocks(solarYear: nat, sumSolars: seq<nat>, sumLunars: seq<nat>)
    returns (drawn: seq<YearRows>)
    ensures |drawn| == 11
    ensures BlocksFrom(drawn, FullBlock(Track("+", sumSolars), Track("-", sumLunars)), 1, solarYear)
  {
    drawn := TrackBlocks(solarYear, Track("+", sumSolars), Track("-", sumLunars));
  }

  /** `drawn` are blocks each satisfying `ok`, the first starting at age `age`
      over year `year` and each next one nine ages and nine years later. */
  predicate BlocksFrom(drawn: seq<YearRows>, ok: (YearRows, nat, nat) -> bool, age: nat, year: nat)
    decreases |drawn|
  {
    |drawn| == 0 || (ok(drawn[0], age, year) && BlocksFrom(drawn[1..], ok, age + 9, year + 9))
  }

  /** A full block of nine over the two tracks, starting at age `a` over year `y`. */
  function FullBlock(solar: Track, lunar: Track): (YearRows, nat, nat) -> bool {
    (r: YearRows, a: nat, y: nat) => YearBlock(r, a, y, 9, solar, lunar)
  }

  /** Drawing the next block extends the drawn blocks. */
  lemma {:induction false} DrawBlock(drawn: seq<YearRows>, ok: (YearRows, nat, nat) -> bool, age: nat, year: nat, rows: YearRows, a: nat, y: nat)
    requires BlocksFrom(drawn, ok, age, year)
    requires a == age + 9 * |drawn| && y == year + 9 * |drawn|
    requires ok(rows, a, y)
    ensures BlocksFrom(drawn + [rows], ok, age, year)
    decreases |drawn|
  {
    if |drawn| > 0 {
      assert (drawn + [rows])[1..] == drawn[1..] + [rows];
      DrawBlock(drawn[1..], ok, age + 9, year + 9, rows, a, y);
    }
  }

  /** Block `b` of the drawn blocks starts at age `age + 9 * b` over year `year + 9 * b`. */
  lemma {:induction false} DrawnAt(drawn: seq<YearRows>, ok: (YearRows, nat, nat) -> bool, age: nat, year: nat, b: nat, a: nat, y: nat)
    requires BlocksFrom(drawn, ok, age, year) && b < |drawn|
    requires a == age + 9 * b && y == year + 9 * b
    ensures ok(drawn[b], a, y)
    decreases b
  {
    if b > 0 {
      DrawnAt(drawn[1..], ok, age + 9, year + 9, b - 1, a, y);
    }
  }

  /** The loop of `drawYearlyTables` over a solar and a lunar track. */
  method TrackBlocks(solarYear: nat, solar: Track, lunar: Track) returns (drawn: seq<YearRows>)
    ensures |drawn| == 11
    ensures BlocksFrom(drawn, FullBlock(solar, lunar), 1, solarYear)
  {
    ghost var age, year, count := 1, solarYear, 0;
    drawn := [];
    var rows := Headings;
    HeadingsBlock(age, year, solar, lunar);
    for i := 1 to 101
      invariant age == 9 * |drawn| + 1 && year == solarYear + 9 * |drawn| && count == i - age
      invariant count <= 9 && (i > 1 ==> count > 0)
      invariant YearBlock(rows, age, year, count, solar, lunar)
      invariant BlocksFrom(drawn, FullBlock(solar, lunar), 1, solarYear)
    {
      if |rows.ages| == 10 {
        DrawBlock(drawn, FullBlock(solar, lunar), 1, solarYear, rows, age, year);
        drawn := drawn + [rows];
        rows := Headings;
        age, year, count := age + 9, year + 9, 0;
        HeadingsBlock(age, year, solar, lunar);
      }
      var yr := solarYear + i - 1;
      var sumYr := SumDigits(yr).0;
      var s, l := FinalNumber(solar.sign, solar.base + [sumYr]), FinalNumber(lunar.sign, lunar.base + [sumYr]);
      IsCell(solar.sign, solar.base, yr, sumYr);
      IsCell(lunar.sign, lunar.base, yr, sumYr);
      PushYear(rows, age, year, count, solar, lunar, i, yr, s, l);
      rows := YearRows(rows.ages + [NatToString(i)], rows.years + [NatToString(yr)], rows.solars + [s], rows.lunars + [l]);
      count := count + 1;
    }
  }

  /** What the drawn yearly blocks show, read back: entry `k` of block `b` is
      age `9 * b + k + 1` (never above 99) over calendar year
      `solarYear + 9 * b + k`, and its labels lead with the base sum plus that
      year's digit sum and reduce to the digital root of the base sum plus the year. */
  lemma YearlyBlockReadBack(drawn: seq<YearRows>, b: nat, k: nat, solarYear: nat, solar: Track, lunar: Track, n: nat)
    requires |drawn| == 11 && BlocksFrom(drawn, FullBlock(solar, lunar), 1, solarYear)
    requires b < 11 && k < 9 && n == solarYear + 9 * b + k && IsSign(solar.sign) && IsSign(lunar.sign)
    ensures |drawn[b].ages| == |drawn[b].years| == |drawn[b].solars| == |drawn[b].lunars| == 10
    ensures ParseDecimal(drawn[b].ages[k + 1]) == 9 * b + 1 + k <= 99
    ensures ParseDecimal(drawn[b].years[k + 1]) == n
    ensures LeadValue(drawn[b].solars[k + 1]) == SeqSum(solar.base) + DigitSum(n)
    ensures ReducedValue(drawn[b].solars[k + 1]) == DigitalRoot(SeqSum(solar.base) + n)
    ensures LeadValue(drawn[b].lunars[k + 1]) == SeqSum(lunar.base) + DigitSum(n)
    ensures ReducedValue(drawn[b].lunars[k + 1]) == DigitalRoot(SeqSum(lunar.base) + n)
  {
    var age, year := 9 * b + 1, solarYear + 9 * b;
    DrawnAt(drawn, FullBlock(solar, lunar), 1, solarYear, b, age, year);
    BlockEntry(drawn[b], age, year, 9, solar, lunar, k, n);
  }

  /** Entry `k` of a block, read back: age `age + k` over year `n = year + k`. */
  lemma BlockEntry(r: YearRows, age: nat, year: nat, count: nat, solar: Track, lunar: Track, k: nat, n: nat)
    requires k < count && n == year + k && IsSign(solar.sign) && IsSign(lunar.sign)
    requires YearBlock(r, age, year, count, solar, lunar)
    ensures ParseDecimal(r.ages[k + 1]) == age + k
    ensures ParseDecimal(r.years[k + 1]) == n
    ensures LeadValue(r.solars[k + 1]) == SeqSum(solar.base) + DigitSum(n)
    ensures ReducedValue(r.solars[k + 1]) == DigitalRoot(SeqSum(solar.base) + n)
    ensures LeadValue(r.lunars[k + 1]) == SeqSum(lunar.base) + DigitSum(n)
    ensures ReducedValue(r.lunars[k + 1]) == DigitalRoot(SeqSum(lunar.base) + n)
  {
    BlockNumerals(r, age, year, count, solar, lunar, k, n);
    BlockCell(r.solars, solar, year, count, k, n);
    BlockCell(r.lunars, lunar, year, count, k, n);
  }

  /** The label of entry `k` of one track's row of a block, read back. */
  lemma BlockCell(row: seq<string>, t: Track, year: nat, count: nat, k: nat, n: nat)
    requires k < count && n == year + k && IsSign(t.sign)
    requires |row| == count + 1 && RunOf(row[1..], CellOf(t.sign, t.base), year)
    ensures LeadValue(row[k + 1]) == SeqSum(t.base) + DigitSum(n)
    ensures ReducedValue(row[k + 1]) == DigitalRoot(SeqSum(t.base) + n)
  {
    HeadedCell(row, t.sign, t.base, year, k, n);
  }

  /** The age and year of entry `k` of a block, read back. */
  lemma BlockNumerals(r: YearRows, age: nat, year: nat, count: nat, solar: Track, lunar: Track, k: nat, n: nat)
    requires k < count && n == year + k
    requires YearBlock(r, age, year, count, solar, lunar)
    ensures ParseDecimal(r.ages[k + 1]) == age + k
    ensures ParseDecimal(r.years[k + 1]) == n
  {
    HeadedNumeral(r.ages, age, k, age + k);
    HeadedNumeral(r.years, year, k, n);
  }

  /** Entry `k` after the heading of a numeral row, read back. */
  lemma HeadedNumeral(row: seq<string>, first: nat, k: nat, n: nat)
    requires k + 1 < |row| && RunOf(row[1..], NatToString, first) && n == first + k
    ensures ParseDecimal(row[k + 1]) == n
  {
    TailAt(row, k);
    NumeralEntry(row[1..], first, k, n);
  }

  /** Entry `k` after the heading of a label row, read back. */
  lemma HeadedCell(row: seq<string>, sign: string, base: seq<nat>, first: nat, k: nat, n: nat)
    requires k + 1 < |row| && RunOf(row[1..], CellOf(sign, base), first) && n == first + k && IsSign(sign)
    ensures LeadValue(row[k + 1]) == SeqSum(base) + DigitSum(n)
    ensures ReducedValue(row[k + 1]) == DigitalRoot(SeqSum(base) + n)
  {
    TailAt(row, k);
    CellEntry(row[1..], sign, base, first, k, n);
  }
}
