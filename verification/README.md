# Life-number chart engine, modelled in Dafny

This project models the numerology engine of `generate.go`. The engine turns a
birth date, read in both the solar and the lunar calendar, into a chart of
"stage labels". Each label is a sign ("+" solar, "-" lunar, none for names)
followed by the digit trail of a sum, for example `+38/11/2`. The trail starts at
the sum and repeats the one-level decimal digit sum until a single digit is
reached. The model keeps the engine's values and drops the drawing of the PDF.

Modules, in dependency order:

- `Decimal`: `fmt.Sprint` of a non-negative int and its parse; the per-rune
  `strconv.Atoi` value; the one-level digit sum (`sumDigits`, `sumDigitsByStr`);
  `sumSlices`.
- `Text`: the `strings`/`fmt` operations used to render and re-read labels
  (`Join`, `Split`, `ReplaceAll`, `Replace`, `Trim`, `fmt.Sprint` of `[]int`),
  and `intSliceToString`.
- `Trails`: the digit trail, its rendering, and the loop of `sumDigitsToString`.
- `Stages`: `finalNumber` and `stageNumbers`, and how a label is read back.
- `DateDigest`: `newTimeData` over a plain date. It holds the three digit sums,
  the digit-count map and the `MoreThan2` flag.
- `Names`: the letter table `chars`, `revert`, `charMap` and `charsToDigits`.
- `Soul`: `soulDegree` and `soulDegrees`.
- `Grid`: the yearly, monthly and daily grids built by `drawYearlyTables` and
  `drawMonthDayTable`, as data.
- `NumEndpoint`: `generateNum`, the numeric endpoint that answers a JSON body.
- `Chart`: `generate`, which puts one page together: the degree tables, the
  yearly blocks, the name digits and the month and day tables.

Facts about the engine that the model keeps as they are:

- The digit map pools the raw decimal digits of the year, month and day, not
  the digits of their trails.
- The date sums are one level only: day 29 gives 11, not 2.
- The yearly loop computes ages 1 to 100. It draws a block each time nine
  entries have gathered, so eleven blocks (ages 1 to 99) are drawn. The
  hundredth age is computed but never drawn.
- `\d` in `^\d+$` is Go's ASCII class `[0-9]`.
- The letter map's order of construction (Go's map range order) is a
  parameter. The result is shown not to depend on it.

## Model

| member | source | states |
|---|---|---|
| Decimal.NatToString | generate.go:440 | `fmt.Sprint` of an int is a non-empty string of digits, with no leading zero unless the number is 0, and is one character long exactly for numbers below 10 |
| Decimal.ParseNatToString | generate.go:440 | parsing the rendering of `n` gives back `n` |
| Decimal.NatToStringParse | generate.go:440 | rendering the number a canonical numeral denotes gives the numeral back |
| Decimal.NatToStringInjective | generate.go:440 | distinct numbers have distinct renderings |
| Decimal.CharValue | generate.go:447 | `Atoi` of a one-rune string, with the error dropped, is below 10, and 0 for every rune that is not a digit |
| Decimal.DigitSum | generate.go:439-452 | the digit sum never exceeds the number, is strictly smaller from 10 upward, and is 0 only for 0 |
| Decimal.DigitSumFixedPoint | generate.go:439-452 | a number equals its digit sum exactly when it has one digit |
| Decimal.DigitSumMod9 | generate.go:439-452 | the digit sum keeps the residue modulo 9 |
| Decimal.SumDigitsByStr | generate.go:443-452 | one per-rune value for each rune, each the rune's `Atoi` value, and the returned sum is the sum of those values |
| Decimal.SumDigitsByStrAppend | generate.go:443-452 | the sum and the value list of a concatenation are those of the parts, concatenated |
| Decimal.CharSumIsDigitSum | generate.go:443-452 | on a string of digits (leading zeros allowed), the rune-by-rune sum is the digit sum of the number the string denotes |
| Decimal.SumDigits | generate.go:439-441 | `sumDigits` returns the arithmetic digit sum and the decimal digits of the number |
| Decimal.SumDigitsListsDigits | generate.go:439-452 | the per-rune values of the rendering are exactly the number's decimal digits |
| Decimal.SeqSum | generate.go:414-420 | `sumSlices` is at least every element of the list |
| Decimal.SeqSumSnoc | generate.go:414-420 | one more element adds its value to the total |
| Decimal.SeqSumAppend | generate.go:414-420 | the sum of a concatenation is the sum of the sums |
| Text.Split | generate.go:533 | splitting on a one-character separator gives at least one piece, no piece holds the separator, and joining the pieces restores the string |
| Text.SplitJoin | generate.go:533 | splitting a join recovers the pieces when none holds the separator |
| Text.RemoveAll | generate.go:532 | `ReplaceAll(s, c, "")` removes every `c` and keeps every other character that occurs |
| Text.RemoveAllAppend | generate.go:532 | removal distributes over concatenation |
| Text.ReplaceJoin | generate.go:423 | replacing the separator of a join whose pieces do not hold it gives the same pieces joined by the new separator |
| Text.TrimLeft | generate.go:423 | the result is a suffix of the input that does not start with a cut character, and every character dropped before it is a cut character |
| Text.TrimRight | generate.go:423 | the result is a prefix of the input that does not end with a cut character, and every character dropped after it is a cut character |
| Text.IntSliceToString | generate.go:422-424 | `intSliceToString` is the values' numerals joined by '/' |
| Text.IntSliceToStringJoins | generate.go:422-424 | printing with brackets and spaces, replacing spaces by '/' and trimming the brackets gives the '/'-join of the numerals |
| Trails.Trail | generate.go:426-435 | the trail starts at `v`, each element is the digit sum of the one before, every element but the last has two or more digits, and the last has one |
| Trails.TrailUnique | generate.go:426-435 | only one sequence has those properties |
| Trails.TrailFixedPoint | generate.go:428-432 | the trail has one element exactly for single digits, and the last element is a fixed point |
| Trails.TrailDecreasing | generate.go:426-435 | the trail strictly decreases |
| Trails.TrailNoRepeats | generate.go:426-435 | no value appears twice in a trail |
| Trails.DigitalRoot | generate.go:426-435 | the digital root is a single digit, 0 only for 0, and congruent to the number modulo 9 otherwise |
| Trails.TrailEndsInDigitalRoot | generate.go:426-435 | the last element of the trail is the digital root of its start |
| Trails.SameResidueSameReduction | generate.go:426-435 | positive numbers with equal residues modulo 9 reduce to the same digit |
| Trails.TrailStringLayers | generate.go:426-437 | splitting a rendered trail on '/' gives the numerals of the trail, and they parse back to the trail |
| Trails.TrailStringAlphabet | generate.go:426-437 | a rendered trail is non-empty and made of digits and slashes only |
| Trails.TrailStringExampleThirtyEight | generate.go:426-437 | 38 renders as "38/11/2" |
| Trails.TrailList | generate.go:427-435 | the loop that appends digit sums until one repeats the last element lists exactly the trail |
| Trails.SumDigitsToString | generate.go:426-437 | `sumDigitsToString` returns the rendered trail |
| Stages.FinalNumber | generate.go:410-412 | a label starts with its sign and has more after it |
| Stages.FinalNumberShape | generate.go:410-412 | a label is its sign followed by a non-empty run of digits and slashes |
| Stages.FinalNumberLayers | generate.go:410-412 | stripping the sign from a label and splitting it gives the numerals of the trail of the sum |
| Stages.FinalNumberReadBack | generate.go:410-420 | a label leads with the sum of its values and ends in that sum's digital root |
| Stages.StageNumbers | generate.go:402-408 | five labels, label `i` being the label of the first `i + 1` inputs; for a sign of '+' or '-', label `i` leads with the sum of those inputs and reduces to its digital root, the first lead is the first input, and each lead is the previous lead plus the next input |
| Stages.StageNumbersExample | generate.go:402-408 | inputs 3, 9, 2, 5, 1 give "+14/5" as the third label |
| DateDigest.DigitKey | generate.go:474 | a digit is counted under its rendering |
| DateDigest.Tally | generate.go:470-475 | the counting loop stores, for each key seen, the number of times it was seen, and stores no other key |
| DateDigest.NewTimeData | generate.go:466-495 | the sums are the one-level digit sums of year, month and day; every key is a one-digit string counted at least once; every digit's count equals its number of occurrences among the date's digits; the flag holds exactly when some digit occurs more than twice |
| DateDigest.KeyCountIsDigitCount | generate.go:472-475 | counting keys is counting digits |
| DateDigest.DigitMapCounts | generate.go:470-475 | the map counts every digit exactly as often as it occurs |
| DateDigest.DigitMapMoreThan2 | generate.go:477-483 | the flag scan finds a count above 2 exactly when some digit occurs more than twice |
| DateDigest.DigitCountsSumToDigitTotal | generate.go:467-475 | the counts add up to the number of digits the year, month and day are written with |
| DateDigest.NewTimeDataExample | generate.go:466-495 | 2024-09-29 gives sums 8, 9 and 11, the counts {2:3, 0:1, 4:1, 9:2}, and the flag set |
| Names.LetterValueRange | generate.go:36-46 | exactly the 26 lower-case letters carry a value, and it lies in 1..9 |
| Names.RevertIn | generate.go:497-505 | `revert` maps exactly the listed values, each to a visited key whose bucket lists it |
| Names.RevertLookup | generate.go:497-505 | with disjoint buckets, each value maps to the one key that lists it |
| Names.RevertOrderIndependent | generate.go:497-505 | with disjoint buckets, the map's range order does not change the result |
| Names.CharsBuckets | generate.go:36-46 | the table has keys 1..9, and every entry is one letter listed under its own value |
| Names.CharsDisjoint | generate.go:36-46 | no letter is listed under two values |
| Names.CharMapLookup | generate.go:47 | for any range order, the reverted table holds a rune exactly when it is a lower-case letter, mapped to that letter's value |
| Names.CharMapKeys | generate.go:47 | `charMap` holds the 26 one-letter strings and nothing else |
| Names.ToLowerIdempotent | generate.go:508 | lower-casing a lower-cased name changes nothing |
| Names.Runes | generate.go:508 | splitting on "" gives one one-rune string per rune, in order, and joining them with "" gives the string back |
| Names.CharsToDigits | generate.go:507-517 | the name digits are the unsigned label of the name's letter sum, which lead with that sum and reduce to its digital root |
| Names.NameValueAppend | generate.go:509-515 | the letter sum of a concatenation is the sum of the letter sums |
| Names.NameValueCaseless | generate.go:508-515 | names that lower-case alike have the same sum |
| Names.NameValueBounds | generate.go:509-515 | each rune adds at most 9, and a name without letters sums to 0 |
| Names.NameValueExample | generate.go:507-517 | "Tom" sums to 20 and shows "20/2", and the empty name shows "0" |
| Soul.Bump | generate.go:554-559 | the raise takes 1 to 4, 2 to 5 and 3 to 7, and keeps every other degree |
| Soul.KeyCount | generate.go:543-549 | the count of runes found is at most the length, equals it exactly when every rune is found, and is 0 exactly when none is |
| Soul.KeyCountAppend | generate.go:543-549 | runes are counted with repetition: the count of a concatenation is the sum of the counts of its parts |
| Soul.KeyCountRepeats | generate.go:543-549 | "100" against a map holding only 0 counts 2 |
| Soul.SoulDegree | generate.go:531-578 | a one-layer label scores 7 when the whole layer is a key and 1 otherwise; a longer label scores one more than its first-layer runes found, raised by `Bump` exactly when that is at most 3 and the main layers are found: the second layer looked up whole for two layers, every rune of the second and third layers for more |
| Soul.RaiseExamples | generate.go:551-577 | "+12/3" with 3 a key rises from 1 to 4, "+10/1" with 1 a key from 2 to 5, and "+11/2" with 1 and 2 keys from 3 to 7 |
| Soul.WholeLayerLookup | generate.go:535-540 | the lone layer "12" is looked up whole, so it scores 1 against a map holding 1 and 2, where the rune-by-rune rule scores 7 |
| Soul.RuneDegreeBump | generate.go:551-577 | the raise changes the degree exactly when every rune of the main layers is found and the first layer scored at most 3 |
| Soul.SoulDegreeByRunes | generate.go:531-578 | when the whole-layer lookups are one-rune lookups, the degree follows the rune-by-rune reference rule |
| Soul.SoulDegreeOnLabels | generate.go:531-578 | on every label the engine produces, the degree follows the rune-by-rune reference rule |
| Soul.SoulDegreeRange | generate.go:531-578 | a label whose sum is below 100 has a degree in {1, 2, 3, 4, 5, 7} |
| Soul.SoulDegreeKeysOnly | generate.go:531-578 | only the keys of the digit map matter, not the counts |
| Soul.ShownDegree | generate.go:522-525 | the shown degree differs from the score exactly when the flag is set and the score is 7, and then it is 6; no 7 is shown when the flag is set |
| Soul.SoulDegrees | generate.go:519-529 | one rendered degree per label, and no "7" is shown when the flag is set |
| Soul.DigitMapHolds | generate.go:466-475 | a one-rune string is a key of a date's map exactly when it is a digit of the year, month or day |
| Soul.ExampleKeys | generate.go:466-483 | the map of 2024-09-29 has keys 2 and 9 and lacks 1, 3, 7 and 8 |
| Soul.LabelDegrees | generate.go:531-578 | with keys 2 and 9 and without 1, 3, 7 and 8, the labels of the prefixes of 8, 9, 11, 1, 9 score 1, 1, 2, 3 and 1 |
| Soul.ExampleDegrees | generate.go:519-578 | for 2024-09-29 with stage inputs 8, 9, 11, 1 and 9, the five solar labels score 1, 1, 2, 3 and 1 against that date's digit map, and are shown so although the date's flag is set |
| Grid.CellReadBack | generate.go:336-338 | a grid cell leads with the base sum plus the digit sum of its number, and reduces to the digital root of the base sum plus the number |
| Grid.CellPeriod | generate.go:336-338 | cells nine numbers apart reduce to the same digit |
| Grid.MonthDayColumns | generate.go:327-342 | column `k` is titled `k + 1` and holds the cells of `k + 1`, and the lunar column keeps at most 30 cells |
| Grid.TrackColumns | generate.go:333-342 | the same, for any pair of tracks |
| Grid.FullColumns | generate.go:333-338 | the loop builds `total` titles `1, 2, …` and, for each track, the cells of `1, 2, …` |
| Grid.TrackCells | generate.go:335-338 | the two labels of a number are its cells in the two tracks |
| Grid.PushYear | generate.go:242-246 | appending the next age, year and labels extends a block by one entry |
| Grid.YearlyBlocks | generate.go:215-248 | eleven blocks are drawn, and block `b` holds ages `9b + 1` to `9b + 9` over the matching years, each with its two labels |
| Grid.TrackBlocks | generate.go:220-247 | the same, for any pair of tracks |
| Grid.DrawnAt | generate.go:224-238 | block `b` starts nine ages and nine years after block `b - 1` |
| Grid.YearlyBlockReadBack | generate.go:224-246 | entry `k` of block `b` shows age `9b + k + 1`, never above 99, over year `solarYear + 9b + k`, with labels that lead with the base sum plus that year's digit sum and reduce to the digital root of the base sum plus the year |
| NumEndpoint.MatchesNumber | generate.go:126-129 | `^\d+$` accepts exactly the non-empty strings of ASCII digits; on those the rune-by-rune sum is the digit sum of the number denoted, and a numeral without a leading zero is the rendering of its number |
| NumEndpoint.LifePasswordJson | generate.go:136-141 | the body is the fixed 17-character head, the password and the closing `"}`, so the password is read back exactly |
| NumEndpoint.LifePasswordJsonInjective | generate.go:136-141 | different passwords give different bodies |
| NumEndpoint.TrailStringNeedsNoEscape | generate.go:136-141 | a rendered trail holds no rune the JSON encoder escapes |
| NumEndpoint.GenerateNum | generate.go:126-147 | a string that is not all ASCII digits, the empty string included, gets 400 and no body; any other gets 200 and the rendered trail of its digit sum |
| NumEndpoint.PasswordReadBack | generate.go:133-134 | the password's first layer is the number's digit sum and its last layer the number's digital root |
| NumEndpoint.LeadingZeroIgnored | generate.go:126-134 | a leading zero is accepted and does not change the answer |
| NumEndpoint.GenerateNumExample | generate.go:126-134 | "1999" has digit sum 28 and is answered "28/10/1" |
| Chart.ColumnReadBack | generate.go:333-342 | every title of a column parses to its number, and every cell reads back as that number's cell |
| Chart.TrackDegrees | generate.go:170-180 | one track's labels are exactly `stageNumbers` of its sign and inputs, they read back, and its degrees are the shown degrees of those labels |
| Chart.DegreeTables | generate.go:159-181 | the solar labels are `stageNumbers("+", …)` of the solar year, month and day sums plus the digit sums of the solar hour and minute; the lunar labels are `stageNumbers("-", …)` of the lunar sums plus the same solar hour and minute sums; both read back, and each degree is the shown degree of its label |
| Chart.MonthDayTable | generate.go:327-351 | `total` titles `1, 2, …`; the solar column holds exactly the "+" cells of `1, 2, …, total` and the lunar column the "-" cells of `1, 2, …`, cut to 30; both read back |
| Chart.Generate | generate.go:88-118 | the page holds both tracks' exact stage labels and their shown degrees, eleven yearly blocks from the solar year with each track's month and day sums, a month table of 12 and a day table of 31 (30 lunar) whose columns are exactly the signed cells over the year and day sums and the year and month sums, and the name digits of both names |

## Left out

- `main.go`, the HTTP routing and form handling, is not part of this model.
- PDF layout is left out: `NewPdf`, `drawMainRow`, `drawDegreeHeader`, `drawNameRow`, `drawLeftTable`, coordinates, colours and fonts. The model keeps the values these functions would draw.
- `generatePdf` and `getLunarTime` are left out. They cover `time.Parse`, the external lunar calendar library, `time.Date` normalisation and the second page for leap months. The solar and lunar dates are parameters of `Chart.Generate`.
- The `slog` warnings are left out, as is the 500 answer when `json.Marshal` fails, which cannot happen for a struct holding one string.
- `Chart.DegreeTables`: the header row showing the formatted dates (`drawDegreeHeader`) is not modelled, because it is layout.
- Go's 64-bit `int` is modelled as an unbounded `nat`. Dates, ages and sums are far from the limit, and the engine never forms negative values.
- `Names.LowerRune`: only runes whose lower case is an ASCII letter are lowered; every other rune is kept. This is enough for `charMap`, whose keys are the ASCII lower-case letters. Lower-cased runes that are not letters would only matter if they were keys.
- `NumEndpoint.LifePasswordJson`: the body is stated for passwords that `json.Marshal` copies unchanged. A password holding `"`, `\`, `<`, `>`, `&`, a control rune, U+2028 or U+2029 would be escaped, and the contract does not describe that. The engine only sends rendered trails, which need no escaping (`NumEndpoint.TrailStringNeedsNoEscape`).
- `NumEndpoint.GenerateNum`: the JSON body is modelled for values that need no escaping. A rendered trail is shown to be such a value.
- `Grid.YearlyBlocks`: the drawn rows are modelled as data. The hundredth entry, computed but never drawn, is not part of the result.
