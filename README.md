# Daily summary report of a bank-branch ledger

This project models `process_data` in `app.py`. The function takes the
parsed transaction export of a bank branch and builds a per-date summary
report:

1. It drops the rows without a date.
2. It classifies rows by substring tests on the description:
   "انتقال از" is card-to-card, "کارمزد" is fee, "انتقال وجه" is daily withdrawal.
3. It sums Deposit per date for card-to-card, and Withdrawal per date for fee
   and daily withdrawal.
4. It lays the fee and daily-withdrawal sums onto the card-to-card dates, filling 0.
5. It derives Sales = card-to-card / 1.1 and Tax = card-to-card − Sales.
6. It renders the five amounts with `,.2f` and gives the columns their Persian labels.

Modules, one file each:

- `Ledger` (`ledger.dfy`): rows with optional cells, the three categories
  with their keywords, substring matching (`Contains`), the date filter.
- `Grouping` (`grouping.dfy`): the grouped sum as a fold of the rows into
  an ascending list of (date, total) entries, the zero-filled lookup behind
  `reindex`, and the reference meaning `SumOn` of one daily bucket.
- `Display` (`display.dfy`): `f"{x:,.2f}"` as `Format`, with `ParseAmount`
  as its inverse on rendered text.
- `Report` (`report.dfy`): the pure specification `Summarize` (lines 3-25)
  with its properties. It also holds the `ReportFrame` class, the DataFrame
  that lines 16-31 build and then update in place. `ProcessData` runs those
  steps and is proved to yield exactly the rendered `Summarize`.
- `Scenario` (`scenario.dfy`): a worked ledger with its report.

Lines 3-13 of the source derive new frames and are modelled as functions.
Lines 16-31 assign columns, overwrite them with text and replace the column
names, so they are modelled as methods of `ReportFrame`.

Four facts about `process_data` that a reader might not expect:

- Report dates come only from the card-to-card sums (app.py:17). A date
  with only fee or withdrawal rows is not in the report. Dates are not
  unioned across categories.
- No total row is appended.
- The keywords, the divisor 1.1 and the two decimals are fixed constants,
  not configuration.
- A row whose description holds two keywords is counted in both
  categories, not in at most one.

## Model

| member | source | states |
|---|---|---|
| Ledger.Contains | app.py:6-8 | the substring test holds exactly when the keyword occurs at some position of the description |
| Ledger.DropUndatedKeeps | app.py:3 | the date filter keeps every dated row as often as it occurs, and only dated rows |
| Ledger.Matches | app.py:6-8 | `str.contains(key, na=False)`: a missing description never matches; otherwise see `Ledger.Contains` |
| Ledger.InCategory | app.py:6-8 | the mask of one category, its keyword tested on the description; see `Ledger.Contains` and `Report.UndescribedRowIgnored` |
| Ledger.DropUndated | app.py:3 | `dropna(subset=['Date'])`; its contract is `Ledger.DropUndatedKeeps` |
| Grouping.GroupSum | app.py:11-13 | `df[mask].groupby('Date')[col].sum()` as a fold over the rows; its contract is `Grouping.GroupSumMeaning` |
| Grouping.Accumulate | app.py:11-13 | one step of the grouped sum; its contract is `Grouping.AccumulateAdds`, `Grouping.AccumulateDates` and `Grouping.AccumulateAscending` |
| Grouping.Lookup | app.py:19-20 | the value of one date in a grouped sum, 0 when absent; see `Grouping.LookupAt` and `Grouping.LookupAbsent` |
| Grouping.Reindex | app.py:19-20 | `reindex(index, fill_value=0).values`, the lookup of each index date; see `Report.ReportZeroFill` |
| Grouping.GroupSumMeaning | app.py:11-13 | a grouped sum is strictly ascending in date, has one entry per date of a selected row and no other, and each entry holds the sum of the category's amount column over that date's matching rows |
| Grouping.GroupSumSkips | app.py:6-13 | a row the category does not select can be removed anywhere without changing that grouped sum |
| Grouping.GroupSumIgnoresUndated | app.py:3-13 | the grouped sums of the filtered rows equal those of all rows, because groupby skips missing keys |
| Grouping.AccumulateAdds | app.py:11-13 | one more selected row adds its amount to its own date's total and leaves every other date's total unchanged |
| Grouping.AccumulateDates | app.py:11-13 | one more selected row adds its date to the dates of the grouped sum and no other |
| Grouping.AccumulateAscending | app.py:11-13 | one more selected row keeps the grouped sum in ascending date order |
| Grouping.SumOnAppend | app.py:11-13 | a daily bucket over the rows plus one row is the old bucket plus that row's share |
| Grouping.SumOnAbsent | app.py:19-20 | a date without a matching dated row has a zero bucket |
| Grouping.LookupAbsent | app.py:19-20 | the lookup behind `reindex(fill_value=0)` gives 0 for a date outside the index |
| Grouping.LookupAt | app.py:19-20 | in an ascending grouped sum the lookup of an entry's date gives that entry's total |
| Grouping.AscendingCount | app.py:11-17 | an ascending grouped sum has as many entries as distinct dates |
| Report.Sales | app.py:24 | sales is card-to-card times 10/11 |
| Report.Tax | app.py:25 | tax is card-to-card divided by 11, one tenth of sales |
| Report.Assemble | app.py:16-25 | the report lines on the card-to-card index, with fee and daily withdrawal looked up and sales and tax derived; see `Report.ReportDates` and `Report.ReportAmounts` |
| Report.Summarize | app.py:3-25 | the numeric report; its contracts are `Report.ReportDates`, `Report.ReportAmounts` and `Report.ReportZeroFill` |
| Report.SummarizeSkipsDropped | app.py:3-21 | the report is the same whether or not the undated rows are dropped first |
| Report.ReportDates | app.py:11-18 | the report has one line per distinct date of a dated card-to-card row, in strictly ascending order, and no other line |
| Report.ReportAmounts | app.py:11-25 | each line holds its date's Deposit sum of card-to-card rows and Withdrawal sums of fee and daily-withdrawal rows; sales + tax = card-to-card and sales = card-to-card·10/11 |
| Report.ReportZeroFill | app.py:19-20 | a report date without fee rows has fee 0, and one without daily-withdrawal rows has daily withdrawal 0 |
| Report.IgnoredRow | app.py:6-13 | a row selected for no category leaves the report unchanged wherever it stands |
| Report.UndatedRowIgnored | app.py:3 | a row without a date leaves the report unchanged |
| Report.UndescribedRowIgnored | app.py:6-8 | a row without a description matches nothing and leaves the report unchanged |
| Report.AppendedRow | app.py:6-13 | one more dated card-to-card row adds its Deposit to its date's line and, when its description also holds the fee or daily-withdrawal keyword, its Withdrawal to that column as well |
| Report.RoundedSplit | app.py:24-28 | for a whole number of cents, rounding its 10/11 and 1/11 parts to the cent loses nothing |
| Report.EleventhsNoTie | app.py:24-28 | a whole number of elevenths is never halfway between two integers, so half-up rounding never meets a tie there |
| Report.SplitNoTie | app.py:24-28 | for a total in whole cents, neither the sales nor the tax amount in cents is at a half-cent tie |
| Report.DisplayedSplitAddsUp | app.py:24-28 | for a card-to-card total in whole cents, the displayed sales and tax add up to the displayed total |
| Report.Render | app.py:28 | one report line as displayed, the date then the five formatted amounts; see `Report.RenderShape` |
| Report.Table | app.py:16-31 | the rendered report column by column; see `Report.FramedReport` and `Report.ProcessData` |
| Report.RenderShape | app.py:28 | every amount cell of a rendered line is text of the `,.2f` shape |
| Report.Position | app.py:24-25 | a column lookup finds the first column with that name, or reports that there is none |
| Report.ReportFrame.constructor | app.py:16-21 | the frame has the columns Date, Card_to_Card, Fee, Daily_Withdrawal, holding the index, the card-to-card values and the two reindexed sums |
| Report.ReportFrame.Assign | app.py:24-25 | assigning a column replaces the existing column of that name, or appends a new last column |
| Report.ReportFrame.FormatColumns | app.py:28 | formatting succeeds exactly when every named column exists and holds numbers; then it formats the named columns and no other, otherwise the frame is unchanged |
| Report.ReportFrame.Relabel | app.py:31 | new labels are taken exactly when there are as many as columns; the cells never change |
| Report.AddSalesAndTax | app.py:24-25 | adds a Sales column of card-to-card / 1.1 and a Tax column of card-to-card − Sales, in that order |
| Report.FormatAndRelabel | app.py:28-31 | every column but the date is rendered as text, and the columns get the six final labels |
| Report.FormattedColumns | app.py:28 | the five amount names are the columns after the date, so formatting them succeeds |
| Report.FramedReport | app.py:16-28 | the frame's cells after these steps are, column by column, the rendered lines of the report |
| Report.SalesTaxColumns | app.py:24-25 | the computed sales and tax columns hold Sales and Tax of each card-to-card value |
| Report.ProcessData | app.py:1-33 | the result carries the six final labels in order, and its lines are the rendered lines of the report, in order |
| Display.Format | app.py:28 | `f"{x:,.2f}"`; its contracts are `Display.FormatValue`, `Display.FormatShape`, `Display.FormatExact` and `Display.FormatError` |
| Display.FormatValue | app.py:28 | rendered text reads back as the value rounded to the nearest cent, sign kept |
| Display.FormatShape | app.py:28 | rendered text is an optional minus, comma-grouped digits without a leading zero, a point and two digits |
| Display.FormatExact | app.py:28 | a whole number of cents renders exactly |
| Display.FormatError | app.py:28 | rendered text is off from the value by at most half a cent |
| Display.GroupedValue | app.py:28 | the comma grouping only inserts separators between digits |
| Display.GroupedShape | app.py:28 | the grouping has groups of three after the first, and no leading zero |
| Scenario.Classified | app.py:6-8 | in the worked ledger each description matches its own keyword and no other |
| Scenario.GroupedSums | app.py:11-13 | the worked ledger's grouped sums: card-to-card 1100 on day 1; fees 50 on day 1 and 10 on day 2; no daily withdrawal |
| Scenario.TwoDays | app.py:3-25 | the worked ledger's report is the single day-1 line: card-to-card 1100, fee 50, daily withdrawal 0, sales 1000, tax 100 |
| Scenario.TwoDaysShown | app.py:28 | that line displays as 1,100.00 / 50.00 / 0.00 / 1,000.00 / 100.00 |

## Left out

- Reading the spreadsheet, the upload and preview interface and the export
  of the report: they are outside `process_data`.
- pandas itself: `dropna`, the boolean masks, `groupby`, `reindex`,
  `applymap` and the column assignment are modelled by their effect on a
  row list and on a column-major table, not through the library's own code.
- Dates are modelled as their rank in the order pandas sorts the Date
  values (an integer); for text dates that is string order. Only their
  order and equality matter to the report. Parsing and printing
  dates is not modelled.
- Ledger.Contains: `str.contains` is a regular-expression search by default.
  The three keywords have no special characters, so it is modelled as a
  plain substring test.
- Report.Sales: amounts are exact reals, so `/ 1.1` is exact division. Binary
  floating point, where 1.1 is not exact, is not modelled.
- Report.Tax: the same, for the subtraction of sales.
- Display.Format: rounds exact values half-up. Python rounds the binary
  double it is given, which can differ on exact half-cent ties. No tie
  arises for whole-cent amounts, nor for their 10/11 and 1/11 parts,
  because 11 is odd (Report.SplitNoTie).
- Report.ProcessData: the failure paths of the column formatting (a missing
  column, a non-number cell) and of the relabelling (a wrong label count)
  are modelled in ReportFrame, but they cannot occur in `process_data`
  itself.
- A NaN amount in a matching row is taken as 0, as pandas' `sum` skips it.
  NaN is not modelled as a value of its own.
- A ledger whose Description column holds no text at all (every cell
  empty) is read as a numeric column, and `.str` then raises
  AttributeError at line 6. Column types are not modelled: for such a
  ledger the model matches nothing and returns an empty report.
- `app.py` never imports pandas, so as written `process_data` would raise
  NameError at line 16. The model assumes `pd` is pandas.
