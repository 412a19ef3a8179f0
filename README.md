# Data-center dashboard cleaning engine, in Dafny

This project models the data-cleaning engine of `dashboard_dc.py`, a Streamlit dashboard comparing national data-center infrastructure. It also models the few computations of the presentation code that act on the cleaned table. Its parts:

- **`clean_numeric`** (`clean_numeric.dfy`, `decimal.dfy`). It turns a spreadsheet text cell into a number: commas are dropped and the cell is cut into maximal runs of digits and dots (the pattern `[\d\.]+`). A cell with a `-` and at least two runs gives the mean of the first two runs ("10-20" is 15). Otherwise the value is the first run, or 0. Python's `float()` on a run is partial: "." and "1.2.3" raise. The model therefore returns `Option<real>`, and None stands for the exception.
- **`clean_tier_score`** (`tier_score.dfy`). It adds the integer of the leftmost `III[:\s]*(\d+)%` match to that of the leftmost `IV[:\s]*(\d+)%` match. A missing pattern counts 0.
- **`load_and_process_data`** (`loader.dfy`), modelled imperatively as the source runs it:
  - five columns are parsed;
  - a loop over the two percentage columns rewrites each one twice (scale fractions in (0, 1] by 100, then clamp at 100);
  - the tier score is added;
  - a boolean mask keeps the rows with positive power and positive internet penetration.

  The method `LoadAndProcess` is proved equal to a row-by-row specification `Process`. Any exception gives an empty table.
- **Presentation helpers** (`dashboard.dfy`):
  - the default benchmark countries that exist in the table;
  - `get_color`;
  - the radar chart's loop, which divides each value by its column's maximum over the whole table (0 when that maximum is not positive) and closes each polygon by repeating its first point.

Cells are `Option<seq<char>>`, where None is pandas' missing value. Numbers are `real`. A table is a sequence of row records. The column-wise frame of `load_and_process_data` is a `map` from column names to value sequences.

Three consequences of the code are worth stating:

- A cell that `float()` rejects is not read as 0. A run such as "." raises inside `load_and_process_data`, and the `except` at lines 93-95 returns an empty table. The model does the same (`ProcessFailure`).
- The normalisation at lines 86-88 lets values ≤ 0 through unchanged (`NormalizePercentCases`). The percentages of the loaded table lie in [0, 100] only because `clean_numeric` is never negative (`ProcessedRows`).
- `dashboard_dc.py` does no feature scaling and no clustering. The only scaling is the radar chart's division by each column's maximum.

## Model

| member | source | states |
|---|---|---|
| Decimal.ParseDecimal | dashboard_dc.py:59-61 | `float()` of a digit-and-dot run is never negative |
| Decimal.ParseDecimalAccepts | dashboard_dc.py:59-61 | `float()` accepts a run exactly when it has at most one dot and at least one digit, so "." and "1.2.3" raise |
| Decimal.ParseShowNat | dashboard_dc.py:61 | round trip: a run written from a whole number n parses back to n |
| Decimal.ParseShowFixed | dashboard_dc.py:61 | round trip: a run `w.f` with f zero-padded to p places parses to w + f/10^p |
| NumericCells.StripCommas | dashboard_dc.py:55 | the result holds no comma and is no longer than the cell |
| NumericCells.StripCommasAppend | dashboard_dc.py:55 | comma removal distributes over concatenation |
| NumericCells.StripOneComma | dashboard_dc.py:55 | removing the single comma of a text joins its two sides |
| NumericCells.StripCommasNoComma | dashboard_dc.py:55 | a text without commas is unchanged |
| NumericCells.Runs | dashboard_dc.py:57 | every run `re.findall` yields is non-empty and made only of digits and dots |
| NumericCells.RunsOfRun | dashboard_dc.py:57 | a text that is one run yields exactly that run |
| NumericCells.RunsSplit | dashboard_dc.py:57 | a character outside the pattern separates runs: the runs of `a c b` are those of a, then those of b |
| NumericCells.RunsEmpty | dashboard_dc.py:57 | there is no run exactly when no character is a digit or dot |
| NumericCells.CleanText | dashboard_dc.py:56-62 | the scan of a comma-free cell is never negative; its branches are stated for general cells by CleanNumericRange (a `-` anywhere in a cell whose first two runs are separated by text without digits or dots), CleanNumericOneRun (one run, a `-` anywhere or nowhere), CleanNumericLeading, CleanSingleRun and CleanNumericNoRun (no run) |
| NumericCells.CleanNumeric | dashboard_dc.py:53-62 | a missing cell gives 0, and a value is never negative, because the pattern never captures a minus sign |
| NumericCells.Mean | dashboard_dc.py:59 | the range mean exists exactly when both ends parse, and twice it is their sum |
| NumericCells.CleanNumericNoRun | dashboard_dc.py:60-62 | a cell with no digit or dot gives 0 |
| NumericCells.RunsPrefix | dashboard_dc.py:57 | text without digits or dots in front of a cell adds no run |
| NumericCells.RunsLead | dashboard_dc.py:57 | a run followed by a character that does not continue it is the first run |
| NumericCells.CleanNumericLeading | dashboard_dc.py:53-61 | for any run x, a cell made of a prefix without digits or dots, x, and a unit that does not continue x, with no `-` or `,` outside x, gives `float(x)` ("~7.5 MW" gives 7.5) |
| NumericCells.RunsOfRange | dashboard_dc.py:57 | in a cell made of a run-free prefix, a run x, a non-empty run-free separator, a run y and a rest that does not continue y, the first two runs are x and y |
| NumericCells.CleanNumericRange | dashboard_dc.py:53-59 | for any runs x and y, a comma-free cell made of a run-free prefix, x, a non-empty run-free separator, y, and a rest that does not continue y, with a `-` anywhere in it, gives the mean of `float(x)` and `float(y)`, and fails when either fails ("1.5 - 2.5 kW" gives 2) |
| NumericCells.CleanNumericRangeWhole | dashboard_dc.py:56-59 | "a-b" of two whole numbers gives (a + b) / 2 |
| NumericCells.CleanNumericSignedRange | dashboard_dc.py:56-59 | the `-` of a negative start selects the range rule: "-2% to 5%" gives 3.5 |
| NumericCells.CleanNumericTrailingDash | dashboard_dc.py:56-59 | a `-` after both runs selects the range rule too: "10 to 20 (2024-25)" gives 15 |
| NumericCells.CleanNumericOneRun | dashboard_dc.py:53-61 | for any run x, a cell made of a prefix and a rest that hold no digit, dot or `,`, with x between them, gives `float(x)` whether or not a `-` occurs: a `-` with fewer than two runs falls back to the first run ("-7.5 MW" gives 7.5, "approx - 5" gives 5) |
| NumericCells.CleanNumericMinusSign | dashboard_dc.py:56-61 | "-a" has a `-` but one run, so by CleanNumericOneRun it falls back to the first run and gives a, for every whole a |
| NumericCells.CleanNumericNegativeRate | dashboard_dc.py:56-61 | a shrinking growth rate "-2.5%" loses its sign and gives 2.5 |
| NumericCells.CleanNumericThousands | dashboard_dc.py:55-61 | "1,500" gives 1500 |
| NumericCells.CleanSingleRun | dashboard_dc.py:53-61 | a cell that is one run gives `float()` of it |
| NumericCells.CleanNumericFraction | dashboard_dc.py:61 | "0.9" gives 0.9 |
| NumericCells.ParseTenths | dashboard_dc.py:61 | `float()` of a numeral w.f with one decimal place is w + f/10, for every whole w and digit f |
| NumericCells.CleanNumericLoneDot | dashboard_dc.py:59-61 | "." raises |
| NumericCells.CleanNumericTwoDots | dashboard_dc.py:59-61 | "1.2.3" raises |
| NumericCells.CleanNumericHyphenatedLabel | dashboard_dc.py:56-59 | the range rule also fires on a label: "Q1-2024" gives 1012.5 |
| TierScore.SkipSeps | dashboard_dc.py:68 | `[:\s]*` consumes the longest run of colons and whitespace |
| TierScore.DigitsEnd | dashboard_dc.py:68 | `(\d+)` takes the longest run of digits |
| TierScore.MatchAt | dashboard_dc.py:68-70 | the greedy attempt to match `TAG[:\s]*(\d+)%` at one position; MatchAtPattern proves it agrees with the regular expression |
| TierScore.MatchAtPattern | dashboard_dc.py:68 | the greedy attempt at a position succeeds exactly when the regular expression matches there, and it captures the same group |
| TierScore.Search | dashboard_dc.py:68-71 | `re.search` finds the leftmost matching position, and none when no position matches |
| TierScore.CleanTierScore | dashboard_dc.py:64-72 | a missing cell scores 0; otherwise the score is the III share plus the IV share, each of which TierPercentFirstMatch and TierPercentNoMatch fix as the group of the leftmost match or 0 |
| TierScore.TierPercent | dashboard_dc.py:68-71 | one tier's share; TierPercentFirstMatch and TierPercentNoMatch prove it is the integer of the leftmost match, or 0 without a match |
| TierScore.TierPercentFirstMatch | dashboard_dc.py:68-71 | a tier's share is the integer of its leftmost match |
| TierScore.TierPercentNoMatch | dashboard_dc.py:66-71 | a tier without a match contributes 0 |
| TierScore.TierScoreNoMarkers | dashboard_dc.py:64-72 | a cell naming neither III nor IV scores 0 |
| TierScore.TierScoreOfLabel | dashboard_dc.py:64-72 | "Tier III: a%, Tier IV: b%" scores a + b |
| TierScore.TierScoreExample | dashboard_dc.py:64-72 | "Tier III: 60%, Tier IV: 20%" scores 80 |
| TierScore.TierScoreOnlyIII | dashboard_dc.py:64-72 | "III:a%" scores a |
| Loader.ScaleFraction | dashboard_dc.py:87 | the first pass of the percentage loop; NormalizePercentCases states its effect on each range of values |
| Loader.Clamp100 | dashboard_dc.py:88 | the second pass of the percentage loop; NormalizePercentCases states its effect on each range of values |
| Loader.NormalizePercent | dashboard_dc.py:86-88 | the result is at most 100, never negative for a non-negative input, and positive exactly when the input is |
| Loader.NormalizePercentCases | dashboard_dc.py:86-88 | (0, 1] is scaled by 100, (1, 100] and values ≤ 0 pass unchanged, and above 100 becomes 100 |
| Loader.CleanRowOf | dashboard_dc.py:79-90 | one row cleaned; CleanRowOfNone proves one raising cell makes it raise, and CleanRowRanges bounds its columns |
| Loader.Viable | dashboard_dc.py:91 | the mask condition: positive power and positive internet penetration; ProcessKeepsViable and KeepViable prove the filter keeps exactly these rows |
| Loader.Process | dashboard_dc.py:76-95 | the row-by-row specification of the load: every kept row is viable and there are no more rows than in the source; ProcessedRows, ProcessFailure and ProcessAppend describe it further, and LoadAndProcess is proved equal to it |
| Loader.CleanRows | dashboard_dc.py:79-90 | the table cleans exactly when every row does, one cleaned row per source row, in order |
| Loader.CleanColumn | dashboard_dc.py:79-83 | `apply(clean_numeric)` succeeds exactly when every cell parses, one value per row |
| Loader.NormalizeColumns | dashboard_dc.py:85-88 | the loop over `cols_percent` normalises every value of the named columns and leaves the other columns untouched |
| Loader.KeepViable | dashboard_dc.py:91 | the mask keeps exactly the rows with positive power and positive internet penetration, in order |
| Loader.BuildFrame | dashboard_dc.py:79-90 | the column-wise frame fails exactly when the row-wise cleaning does; otherwise it holds exactly the row-wise cleaned rows |
| Loader.DeriveColumns | dashboard_dc.py:84-90 | after the percentage loop and the tier column the frame is complete, and read row by row it is the row-wise cleaning |
| Loader.FrameRows | dashboard_dc.py:79-90 | a complete frame whose columns are the parsed columns, the normalised percentages and the tier scores assembles to the row-wise cleaning |
| Loader.LoadAndProcess | dashboard_dc.py:76-95 | the imperative load equals the row-wise specification, including the empty table on an exception |
| Loader.NoCleanRows | dashboard_dc.py:79-83 | a column that raises leaves no cleaned table |
| Loader.ColumnsToRows | dashboard_dc.py:79-90 | the parsed columns, side by side, are the rows of the row-wise cleaning |
| Loader.ProcessedRows | dashboard_dc.py:77-92 | every kept row is viable and comes from a source row; its percentages lie in [0, 100], and counts, growth and quality are never negative |
| Loader.ProcessedSource | dashboard_dc.py:79-91 | a kept row is viable and is the cleaning of some source row |
| Loader.CleanRowRanges | dashboard_dc.py:79-90 | a cleaned row has both percentages in [0, 100] and no negative count, power, growth or quality |
| Loader.ProcessFailure | dashboard_dc.py:93-95 | one unparsable cell empties the whole table |
| Loader.ProcessKeepsViable | dashboard_dc.py:91 | when nothing raises, every viable row is kept |
| Loader.CleanRowsAppend | dashboard_dc.py:79-90 | cleaning two blocks of rows is cleaning each block |
| Loader.ProcessAppend | dashboard_dc.py:91 | the filter keeps the original order: processing a concatenation concatenates the results |
| Loader.ProcessSingle | dashboard_dc.py:79-92 | a one-row table is kept as its cleaned row exactly when that row is viable |
| Loader.ProcessExample | dashboard_dc.py:79-92 | the row ("10-20", "50", "0.9", "40", "5", "Tier III: 60%, Tier IV: 10%") becomes (15, 50, 90, 40, 5, 70) and is kept |
| Seqs.Filter | dashboard_dc.py:91 | the selection keeps only elements that pass, and every element that passes |
| Seqs.FilterAppend | dashboard_dc.py:91 | selection distributes over concatenation, so the original order is kept |
| Seqs.FilterAll | dashboard_dc.py:118 | a list whose every element passes is kept whole |
| Seqs.FilterNone | dashboard_dc.py:118 | a list whose every element fails is dropped whole |
| Seqs.TryMap | dashboard_dc.py:79-83 | `apply` of a function that may raise: a result exactly when no application raises, then one value per element, each the function's value at that element |
| Seqs.TryMapAppend | dashboard_dc.py:79-83 | applying to a concatenation, when neither part raises, concatenates the results |
| Seqs.FilterDistinct | dashboard_dc.py:118 | selection from a list without repeats has no repeats |
| Dashboard.ValidDefaults | dashboard_dc.py:117-118 | a country is offered by default exactly when it is one of the defaults and it is in the table |
| Dashboard.ValidDefaultsDistinct | dashboard_dc.py:117-118 | no default is offered twice |
| Dashboard.ValidDefaultsAll | dashboard_dc.py:117-118 | when every default is in the table, the full default list is offered, in its order |
| Dashboard.ValidDefaultsNone | dashboard_dc.py:117-118 | when no default is in the table, nothing is offered |
| Dashboard.GetColor | dashboard_dc.py:189-192 | the category is the focus label exactly for Indonesia, the benchmark label exactly for Singapore, and the peer label for every other country |
| Dashboard.ColumnMax | dashboard_dc.py:246 | `max()` exists exactly for a non-empty table; it bounds every value of the column and is attained by a row |
| Dashboard.RadarValue | dashboard_dc.py:246-247 | with a positive column maximum m the value v satisfies v * m = the row's value; otherwise it is 0 |
| Dashboard.RadarValueBounds | dashboard_dc.py:246-247 | a non-negative value of a row of the same table scales into [0, 1], and the row holding the maximum reaches 1 |
| Dashboard.RadarValues | dashboard_dc.py:244-249 | one value per category, each the value over the column maximum or 0, then the first one again |
| Dashboard.FindCountry | dashboard_dc.py:243 | `iloc[0]` finds a row exactly when the country occurs; that row has that country and is the first such row of the table |
| Dashboard.FindCountryFiltered | dashboard_dc.py:236-243 | looking a country up in `df_radar` finds the same row as in the whole table |
| Dashboard.RadarTrace | dashboard_dc.py:242-249 | one pass of the loop fails exactly when the country has no row; otherwise its polygon is the closed, normalised value list of the country's first row in the whole table |
| Dashboard.RadarTraces | dashboard_dc.py:235-249 | the loop fails exactly when a chosen country has no row; otherwise there is one closed trace per chosen country, in order, normalised by the whole table's maxima |
| Dashboard.RadarOnProcessedTable | dashboard_dc.py:246-247 | on the loaded table, every radar value lies in [0, 1] |

## Left out

- Reading the CSV file, `st.cache_data`, the Streamlit page, CSS, sidebar, tabs, titles and insight HTML. These are I/O and UI with no logic. A table that could not be read, or that lacks one of the six columns read at lines 79-83 and 90, is the input None of `LoadAndProcess`.
- A table without a `country` column. `load_and_process_data` does not read that column and returns such a table cleaned; the failure comes only at line 116, outside the function. A row here always carries a country.
- Plotly figure construction and theming (`apply_pro_theme` and the bar, scatter, radar and lollipop charts). A radar trace is modelled only as its name, its closed labels and its closed values.
- `str(value)` of a cell pandas already parsed as a number, and `.lower()`. Cells are taken as text, and lower-casing cannot change a digit, a dot, a comma or a hyphen.
- Unicode digits. `\d` is modelled as the ASCII digits 0-9, the only digits a spreadsheet export holds. `\s` is Python's whitespace set.
- IEEE floating-point rounding. Values are exact reals, so "0.9" is exactly 9/10.
- The median guides of the scatter chart, `sort_values` of the lollipop chart, and `unique()` of the country lists. These are library calls that place or order chart elements; `unique()` does not change membership.
- The other lookups by country (`values[0]` for Indonesia and Singapore in the insight boxes). They sit inside `try: ... except: pass` and only change insight text.
- Feature standardisation and K-means clustering. Neither exists in `dashboard_dc.py`.
- Loader.NormalizeColumns: requires the names it rewrites to be distinct and present in the frame. The source passes the constant list of the two percentage columns, which meets both.
- Dashboard.RadarValues: requires a non-empty category list. The source passes a constant five-column list; with an empty one `values[0]` would raise.
