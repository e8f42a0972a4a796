/** `process_data`: the daily summary report. The numeric report is the
    specification `Summarize` (dates of the card-to-card sums, the fee and
    daily-withdrawal sums aligned on those dates with zeros, sales and tax
    derived from card-to-card); `ProcessData` builds the report table step
    by step, as the source mutates its DataFrame, and is proved to render
    exactly `Summarize`. */
module Report {
  import opened Ledger
  import opened Grouping
  import opened Display

  /** Sales with the 10% tax taken out: `card_to_card / 1.1`. */
  function Sales(cardToCard: real): (sales: real)
    ensures sales == cardToCard * 10.0 / 11.0
  {
    cardToCard / 1.1
  }

  /** The tax inside a card-to-card total: what remains after the sales. */
  function Tax(cardToCard: real): (tax: real)
    ensures tax == cardToCard / 11.0
    ensures tax * 10.0 == Sales(cardToCard)
  {
    cardToCard - Sales(cardToCard)
  }

  /** One line of the report before formatting. */
  datatype Summary = Summary(date: Date, cardToCard: real, fee: real, dailyWithdrawal: real,
                             sales: real, tax: real)

  /** The report lines built from the three grouped sums: the index and the
      values of the card-to-card sum, the other two reindexed on it. */
  function Assemble(cardToCard: seq<Entry>, fee: seq<Entry>, daily: seq<Entry>): seq<Summary>
  {
    seq(|cardToCard|, i requires 0 <= i < |cardToCard| =>
      var c := cardToCard[i].total;
      Summary(cardToCard[i].date, c, Lookup(fee, cardToCard[i].date),
              Lookup(daily, cardToCard[i].date), Sales(c), Tax(c)))
  }

  /** The numeric content of the report (app.py, lines 3-25). */
  function Summarize(rows: seq<Row>): seq<Summary>
  {
    var df := DropUndated(rows);
    Assemble(GroupSum(df, CardToCard), GroupSum(df, Fee), GroupSum(df, DailyWithdrawal))
  }

  lemma SummarizeSkipsDropped(rows: seq<Row>)
    ensures Summarize(rows)
         == Assemble(GroupSum(rows, CardToCard), GroupSum(rows, Fee), GroupSum(rows, DailyWithdrawal))
  {
    GroupSumIgnoresUndated(rows, CardToCard);
    GroupSumIgnoresUndated(rows, Fee);
    GroupSumIgnoresUndated(rows, DailyWithdrawal);
  }

  /** The report has one line per distinct date among the dated card-to-card
      rows, in ascending date order, and no other line: a date with only fee
      or withdrawal rows does not appear. */
  lemma ReportDates(rows: seq<Row>)
    ensures forall i, j :: 0 <= i < j < |Summarize(rows)| ==> Summarize(rows)[i].date < Summarize(rows)[j].date
    ensures forall d :: d in SelectedDates(rows, CardToCard)
                    <==> exists i :: 0 <= i < |Summarize(rows)| && Summarize(rows)[i].date == d
    ensures |Summarize(rows)| == |SelectedDates(rows, CardToCard)|
  {
    SummarizeSkipsDropped(rows);
    var s := GroupSum(rows, CardToCard);
    GroupSumMeaning(rows, CardToCard);
    AscendingCount(s);
    var report := Summarize(rows);
    assert forall i :: 0 <= i < |report| ==> report[i].date == s[i].date;
    forall d | d in SelectedDates(rows, CardToCard)
      ensures exists i :: 0 <= i < |report| && report[i].date == d
    {
      var e :| e in s && e.date == d;
      var i :| 0 <= i < |s| && s[i] == e;
      assert report[i].date == d;
    }
    forall i | 0 <= i < |report|
      ensures report[i].date in SelectedDates(rows, CardToCard)
    {
      assert s[i] in s;
    }
  }

  /** Each line holds its date's buckets: card-to-card is the sum of Deposit
      over the dated rows whose description contains "انتقال از", fee and
      daily withdrawal the sums of Withdrawal over those containing "کارمزد"
      and "انتقال وجه"; sales and tax split card-to-card at 10:1. */
  lemma ReportAmounts(rows: seq<Row>)
    ensures forall i :: 0 <= i < |Summarize(rows)| ==>
      var line := Summarize(rows)[i];
      && line.cardToCard == SumOn(rows, CardToCard, line.date)
      && line.fee == SumOn(rows, Fee, line.date)
      && line.dailyWithdrawal == SumOn(rows, DailyWithdrawal, line.date)
      && line.sales + line.tax == line.cardToCard
      && line.sales == line.cardToCard * 10.0 / 11.0
  {
    SummarizeSkipsDropped(rows);
    var s := GroupSum(rows, CardToCard);
    GroupSumMeaning(rows, CardToCard);
    GroupSumMeaning(rows, Fee);
    GroupSumMeaning(rows, DailyWithdrawal);
    forall i | 0 <= i < |s|
      ensures s[i].total == SumOn(rows, CardToCard, s[i].date)
    {
      LookupAt(s, i);
    }
  }

  /** Zero fill: on a report date without fee rows the fee is 0, and on one
      without daily-withdrawal rows the daily withdrawal is 0. */
  lemma ReportZeroFill(rows: seq<Row>)
    ensures forall i :: 0 <= i < |Summarize(rows)| ==>
      var line := Summarize(rows)[i];
      && (line.date !in SelectedDates(rows, Fee) ==> line.fee == 0.0)
      && (line.date !in SelectedDates(rows, DailyWithdrawal) ==> line.dailyWithdrawal == 0.0)
  {
    ReportAmounts(rows);
    forall i | 0 <= i < |Summarize(rows)|
      ensures var line := Summarize(rows)[i];
        && (line.date !in SelectedDates(rows, Fee) ==> line.fee == 0.0)
        && (line.date !in SelectedDates(rows, DailyWithdrawal) ==> line.dailyWithdrawal == 0.0)
    {
      var d := Summarize(rows)[i].date;
      if d !in SelectedDates(rows, Fee) {
        SumOnAbsent(rows, Fee, d);
      }
      if d !in SelectedDates(rows, DailyWithdrawal) {
        SumOnAbsent(rows, DailyWithdrawal, d);
      }
    }
  }

  /** A row selected for no category changes nothing in the report,
      wherever it stands. */
  lemma IgnoredRow(a: seq<Row>, r: Row, b: seq<Row>)
    requires !Selected(r, CardToCard) && !Selected(r, Fee) && !Selected(r, DailyWithdrawal)
    ensures Summarize(a + [r] + b) == Summarize(a + b)
  {
    SummarizeSkipsDropped(a + [r] + b);
    SummarizeSkipsDropped(a + b);
    GroupSumSkips(a, r, b, CardToCard);
    GroupSumSkips(a, r, b, Fee);
    GroupSumSkips(a, r, b, DailyWithdrawal);
  }

  /** A row without a date contributes to nothing in the report. */
  lemma UndatedRowIgnored(a: seq<Row>, r: Row, b: seq<Row>)
    requires r.date.None?
    ensures Summarize(a + [r] + b) == Summarize(a + b)
  {
    IgnoredRow(a, r, b);
  }

  /** A row whose description is missing matches no keyword and
      contributes to nothing in the report. */
  lemma UndescribedRowIgnored(a: seq<Row>, r: Row, b: seq<Row>)
    requires r.description.None?
    ensures Summarize(a + [r] + b) == Summarize(a + b)
  {
    IgnoredRow(a, r, b);
  }

  /** Categories are tested independently: one more dated card-to-card row
      adds its Deposit to the card-to-card value of its date's line and, if
      its description also holds "کارمزد" or "انتقال وجه", its Withdrawal to
      the fee or daily-withdrawal value of the same line as well. */
  lemma AppendedRow(rows: seq<Row>, r: Row, d: Date)
    requires r.date == Some(d) && InCategory(r, CardToCard)
    ensures exists i :: 0 <= i < |Summarize(rows + [r])| && AppendedLine(rows, r, Summarize(rows + [r])[i])
  {
    var more := rows + [r];
    var report := Summarize(more);
    SelectedDatesAppend(rows, r, CardToCard);
    assert d in SelectedDates(more, CardToCard);
    ReportDates(more);
    var i :| 0 <= i < |report| && report[i].date == d;
    ReportAmounts(more);
    SumOnAppend(rows, r, CardToCard);
    SumOnAppend(rows, r, Fee);
    SumOnAppend(rows, r, DailyWithdrawal);
    assert AppendedLine(rows, r, report[i]);
  }

  /** The line of the appended row's date holds the old buckets plus what
      the row adds to each category it matches. */
  ghost predicate AppendedLine(rows: seq<Row>, r: Row, line: Summary)
    requires r.date.Some?
  {
    var d := r.date.value;
    && line.date == d
    && line.cardToCard == SumOn(rows, CardToCard, d) + Amount(CardToCard, r)
    && line.fee == SumOn(rows, Fee, d) + (if InCategory(r, Fee) then Amount(Fee, r) else 0.0)
    && line.dailyWithdrawal == SumOn(rows, DailyWithdrawal, d)
                               + (if InCategory(r, DailyWithdrawal) then Amount(DailyWithdrawal, r) else 0.0)
  }

  /** Displayed to the cent, sales and tax add up to the displayed
      card-to-card total whenever that total is a whole number of cents. */
  lemma DisplayedSplitAddsUp(c: nat)
    ensures var total := c as real / 100.0;
      ParseAmount(Format(Sales(total))) + ParseAmount(Format(Tax(total))) == ParseAmount(Format(total))
  {
    var total := c as real / 100.0;
    FormatExact(c);
    FormatValue(Sales(total));
    FormatValue(Tax(total));
    assert Abs(Sales(total)) * 100.0 == c as real * 10.0 / 11.0;
    assert Abs(Tax(total)) * 100.0 == c as real / 11.0;
    RoundedSplit(c);
  }

  lemma RoundShift(k: int, y: real)
    ensures RoundHalfUp(k as real + y) == k + RoundHalfUp(y)
  {
  }

  /** Rounding 10/11 and 1/11 of a whole number to the nearest integer
      loses nothing: the two roundings add up to the number. */
  lemma RoundedSplit(c: nat)
    ensures RoundHalfUp(c as real * 10.0 / 11.0) + RoundHalfUp(c as real / 11.0) == c
  {
    var q, r := c / 11, c % 11;
    assert c as real * 10.0 / 11.0 == (10 * q) as real + r as real * 10.0 / 11.0;
    assert c as real / 11.0 == q as real + r as real / 11.0;
    RoundShift(10 * q, r as real * 10.0 / 11.0);
    RoundShift(q, r as real / 11.0);
    assert RoundHalfUp(r as real * 10.0 / 11.0) + RoundHalfUp(r as real / 11.0) == r by {
      assert 0 <= r < 11;
      if r <= 5 {
        assert RoundHalfUp(r as real / 11.0) == 0;
        assert RoundHalfUp(r as real * 10.0 / 11.0) == r;
      } else {
        assert RoundHalfUp(r as real / 11.0) == 1;
        assert RoundHalfUp(r as real * 10.0 / 11.0) == r - 1;
      }
    }
  }

  /** A whole number of elevenths is never halfway between two integers,
      since 11 is odd: half-up rounding never meets a tie there. */
  lemma EleventhsNoTie(n: int)
    ensures RoundHalfUp(n as real / 11.0) as real != n as real / 11.0 + 0.5
  {
  }

  /** For a total in whole cents, the sales and tax amounts in cents are
      never at a half-cent tie, so how ties are rounded does not matter. */
  lemma SplitNoTie(c: int)
    ensures var sales := c as real * 10.0 / 11.0;
      RoundHalfUp(sales) as real != sales + 0.5
    ensures var tax := c as real / 11.0;
      RoundHalfUp(tax) as real != tax + 0.5
  {
    assert c as real * 10.0 / 11.0 == (10 * c) as real / 11.0;
    EleventhsNoTie(10 * c);
    EleventhsNoTie(c);
  }

  /** A cell of the report table. */
  datatype Cell = At(date: Date) | Num(x: real) | Text(s: string)

  /** The column names the frame is built with (app.py, lines 16-21). */
  const BuiltColumns: seq<string> := ["Date", "Card_to_Card", "Fee", "Daily_Withdrawal"]

  /** The numeric columns that are rendered as text (app.py, line 28). */
  const AmountColumns: seq<string> := ["Card_to_Card", "Fee", "Daily_Withdrawal", "Sales", "Tax"]

  /** The columns once sales and tax are added (app.py, lines 24-25). */
  const WithSalesAndTax: seq<string> := ["Date", "Card_to_Card", "Fee", "Daily_Withdrawal", "Sales", "Tax"]

  /** The final column labels, in order: date, card-to-card, fee, daily
      withdrawal, sales, tax (app.py, line 31). */
  const Labels: seq<string> := ["تاریخ", "کارت به کارت", "کارمزد", "برداشت روز", "فروش", "مالیات"]

  /** A report line as it is finally shown: the date, then every amount
      rendered with two decimals and grouped thousands. */
  function Render(line: Summary): seq<Cell>
  {
    [At(line.date), Text(Format(line.cardToCard)), Text(Format(line.fee)),
     Text(Format(line.dailyWithdrawal)), Text(Format(line.sales)), Text(Format(line.tax))]
  }

  /** Every amount of a rendered line has the `,.2f` shape. */
  lemma RenderShape(line: Summary)
    ensures forall j :: 1 <= j < |Render(line)| ==>
      Render(line)[j].Text? && IsAmountText(Render(line)[j].s)
  {
    FormatShape(line.cardToCard);
    FormatShape(line.fee);
    FormatShape(line.dailyWithdrawal);
    FormatShape(line.sales);
    FormatShape(line.tax);
  }

  /** The position of the first column called `name`, or `|names|` when
      there is none. */
  function Position(names: seq<string>, name: string): (k: nat)
    ensures k <= |names|
    ensures k < |names| ==> names[k] == name
    ensures k == |names| <==> name !in names
    ensures forall j :: 0 <= j < k ==> names[j] != name
  {
    if names == [] then 0
    else if names[0] == name then 0
    else 1 + Position(names[1..], name)
  }

  /** `f"{x:,.2f}"` applied to a cell that holds a number. */
  function FormatCell(c: Cell): Cell
  {
    if c.Num? then Text(Format(c.x)) else c
  }

  /** Row `i` of a table given column by column. */
  function Across(data: seq<seq<Cell>>, i: nat): seq<Cell>
    requires forall j :: 0 <= j < |data| ==> i < |data[j]|
  {
    seq(|data|, j requires 0 <= j < |data| => data[j][i])
  }

  /** A column of dates. */
  function Dated(index: seq<Date>): seq<Cell>
  {
    seq(|index|, i requires 0 <= i < |index| => At(index[i]))
  }

  /** A column of numbers. */
  function Numbers(xs: seq<real>): seq<Cell>
  {
    seq(|xs|, i requires 0 <= i < |xs| => Num(xs[i]))
  }

  /** `applymap` of the formatter over one column. */
  function FormatAll(column: seq<Cell>): seq<Cell>
  {
    seq(|column|, i requires 0 <= i < |column| => FormatCell(column[i]))
  }

  predicate AllNumbers(column: seq<Cell>)
  {
    forall i :: 0 <= i < |column| ==> column[i].Num?
  }

  /** The report DataFrame: column names and, column by column, its cells. */
  class ReportFrame {
    var columns: seq<string>
    var data: seq<seq<Cell>>
    var height: nat

    ghost predicate Valid()
      reads this
    {
      |data| == |columns| && forall j :: 0 <= j < |data| ==> |data[j]| == height
    }

    /** Row `i`, read across all columns. */
    function Line(i: nat): seq<Cell>
      reads this
      requires Valid() && i < height
    {
      Across(data, i)
    }

    /** The frame of app.py, lines 16-21: the date index, then the
        card-to-card, fee and daily-withdrawal values. */
    constructor (index: seq<Date>, cardToCard: seq<real>, fee: seq<real>, daily: seq<real>)
      requires |cardToCard| == |index| && |fee| == |index| && |daily| == |index|
      ensures Valid() && height == |index| && columns == BuiltColumns
      ensures data == [Dated(index), Numbers(cardToCard), Numbers(fee), Numbers(daily)]
    {
      columns := BuiltColumns;
      height := |index|;
      data := [Dated(index), Numbers(cardToCard), Numbers(fee), Numbers(daily)];
    }

    /** `report[name] = values`: replaces the column called `name`, or adds
        it as the last column when there is none. */
    method Assign(name: string, values: seq<Cell>)
      requires Valid() && |values| == height
      modifies this
      ensures Valid() && height == old(height)
      ensures name in old(columns) ==>
        columns == old(columns) && data == old(data)[Position(old(columns), name) := values]
      ensures name !in old(columns) ==>
        columns == old(columns) + [name] && data == old(data) + [values]
    {
      var k := Position(columns, name);
      if k < |columns| {
        data := data[k := values];
      } else {
        columns := columns + [name];
        data := data + [values];
      }
    }

    /** `report[names] = report[names].applymap(lambda x: f"{x:,.2f}")`.
        When a name is not a column (KeyError) or a named column holds
        something other than a number (ValueError) it fails and leaves the
        frame as it was. */
    method FormatColumns(names: seq<string>) returns (ok: bool)
      requires Valid()
      modifies this
      ensures Valid() && height == old(height) && columns == old(columns)
      ensures ok <==> forall k :: 0 <= k < |names| ==>
        names[k] in columns && AllNumbers(old(data)[Position(columns, names[k])])
      ensures ok ==> |data| == |old(data)| && forall j :: 0 <= j < |data| ==>
        data[j] == if columns[j] in names then FormatAll(old(data)[j]) else old(data)[j]
      ensures !ok ==> data == old(data)
    {
      var cols, d := columns, data;
      ok := forall k :: 0 <= k < |names| ==> names[k] in cols && AllNumbers(d[Position(cols, names[k])]);
      if ok {
        data := seq(|d|, j requires 0 <= j < |d| => if cols[j] in names then FormatAll(d[j]) else d[j]);
      }
    }

    /** `report.columns = labels`; pandas refuses a list of another length. */
    method Relabel(labels: seq<string>) returns (ok: bool)
      requires Valid()
      modifies this
      ensures Valid() && data == old(data) && height == old(height)
      ensures ok <==> |labels| == |old(columns)|
      ensures columns == if ok then labels else old(columns)
    {
      ok := |labels| == |columns|;
      if ok {
        columns := labels;
      }
    }
  }

  /** The report as a table: column `k` holds cell `k` of every rendered line. */
  function Table(report: seq<Summary>): seq<seq<Cell>>
  {
    seq(6, k requires 0 <= k < 6 =>
      seq(|report|, i requires 0 <= i < |report| => Render(report[i])[k]))
  }

  /** The sales column computed from a card-to-card column. */
  function SalesColumn(cardToCard: seq<Cell>): seq<Cell>
    requires AllNumbers(cardToCard)
  {
    seq(|cardToCard|, i requires 0 <= i < |cardToCard| => Num(cardToCard[i].x / 1.1))
  }

  /** The tax column: card-to-card minus sales, line by line. */
  function TaxColumn(cardToCard: seq<Cell>, sales: seq<Cell>): seq<Cell>
    requires AllNumbers(cardToCard) && AllNumbers(sales) && |sales| == |cardToCard|
  {
    seq(|cardToCard|, i requires 0 <= i < |cardToCard| => Num(cardToCard[i].x - sales[i].x))
  }

  /** app.py, lines 24-25: `report['Sales'] = report['Card_to_Card'] / 1.1`,
      then `report['Tax'] = report['Card_to_Card'] - report['Sales']`. */
  method AddSalesAndTax(report: ReportFrame)
    requires report.Valid() && report.columns == BuiltColumns && AllNumbers(report.data[1])
    modifies report
    ensures report.Valid() && report.height == old(report.height)
    ensures report.columns == WithSalesAndTax
    ensures report.data == old(report.data)
      + [SalesColumn(old(report.data[1])), TaxColumn(old(report.data[1]), SalesColumn(old(report.data[1])))]
  {
    var cardToCard := report.data[1];
    report.Assign("Sales", SalesColumn(cardToCard));
    var sales := report.data[4];
    report.Assign("Tax", TaxColumn(cardToCard, sales));
  }

  /** app.py, lines 28-31: the five amount columns rendered as text, then
      the columns given their final labels. */
  method FormatAndRelabel(report: ReportFrame)
    requires report.Valid() && report.columns == WithSalesAndTax
    requires forall j :: 1 <= j < 6 ==> AllNumbers(report.data[j])
    modifies report
    ensures report.Valid() && report.height == old(report.height)
    ensures report.columns == Labels
    ensures |report.data| == 6 && report.data[0] == old(report.data[0])
    ensures forall j :: 1 <= j < 6 ==> report.data[j] == FormatAll(old(report.data[j]))
  {
    FormattedColumns(report.data);
    var ok := report.FormatColumns(AmountColumns);
    ok := report.Relabel(Labels);
  }

  /** `process_data`: the report table has the final labels, and its lines
      are the lines of `Summarize`, rendered, in order. */
  method ProcessData(rows: seq<Row>) returns (report: ReportFrame)
    ensures fresh(report) && report.Valid()
    ensures report.columns == Labels
    ensures report.height == |Summarize(rows)|
    ensures report.data == Table(Summarize(rows))
    ensures forall i :: 0 <= i < report.height ==> report.Line(i) == Render(Summarize(rows)[i])
  {
    var df := DropUndated(rows);
    var cardToCardSum := GroupSum(df, CardToCard);
    var feeSum := GroupSum(df, Fee);
    var dailyWithdrawalSum := GroupSum(df, DailyWithdrawal);
    var index := Index(cardToCardSum);
    report := new ReportFrame(index, Totals(cardToCardSum),
                              Reindex(feeSum, index), Reindex(dailyWithdrawalSum, index));
    AddSalesAndTax(report);
    FormatAndRelabel(report);
    ghost var summary := Summarize(rows);
    FramedReport(cardToCardSum, feeSum, dailyWithdrawalSum, report.data, summary);
    TableLines(summary);
  }

  /** Reading the table across gives back the rendered lines. */
  lemma TableLines(report: seq<Summary>)
    ensures forall i :: 0 <= i < |report| ==> Across(Table(report), i) == Render(report[i])
  {
  }

  /** Formatting the amount columns of a frame with sales and tax succeeds
      and renders every column but the date. */
  lemma FormattedColumns(data: seq<seq<Cell>>)
    requires |data| == 6 && forall j :: 1 <= j < 6 ==> AllNumbers(data[j])
    ensures forall k :: 0 <= k < |AmountColumns| ==>
      AmountColumns[k] in WithSalesAndTax && AllNumbers(data[Position(WithSalesAndTax, AmountColumns[k])])
    ensures forall j :: 0 <= j < 6 ==> (WithSalesAndTax[j] in AmountColumns <==> j != 0)
  {
    forall k | 0 <= k < |AmountColumns|
      ensures Position(WithSalesAndTax, AmountColumns[k]) == k + 1
    {
      if k == 0 {
        assert Position(WithSalesAndTax, "Card_to_Card") == 1;
      } else if k == 1 {
        assert Position(WithSalesAndTax, "Fee") == 2;
      } else if k == 2 {
        assert Position(WithSalesAndTax, "Daily_Withdrawal") == 3;
      } else if k == 3 {
        assert Position(WithSalesAndTax, "Sales") == 4;
      } else {
        assert Position(WithSalesAndTax, "Tax") == 5;
      }
    }
    forall j | 0 <= j < 6
      ensures WithSalesAndTax[j] in AmountColumns <==> j != 0
    {
      if j == 0 {
        assert "Date" !in AmountColumns;
      } else {
        assert WithSalesAndTax[j] == AmountColumns[j - 1];
      }
    }
  }

  /** The frame's cells after the steps of `ProcessData` are the rendered
      report. */
  lemma FramedReport(cardToCard: seq<Entry>, fee: seq<Entry>, daily: seq<Entry>,
                     data: seq<seq<Cell>>, report: seq<Summary>)
    requires report == Assemble(cardToCard, fee, daily)
    requires
      var index, c := Index(cardToCard), Numbers(Totals(cardToCard));
      data == [Dated(index), FormatAll(c), FormatAll(Numbers(Reindex(fee, index))),
               FormatAll(Numbers(Reindex(daily, index))), FormatAll(SalesColumn(c)),
               FormatAll(TaxColumn(c, SalesColumn(c)))]
    ensures data == Table(report)
  {
    var index, totals := Index(cardToCard), Totals(cardToCard);
    var c := Numbers(totals);
    var n := |report|;
    var table := Table(report);
    assert data[0] == table[0];
    RenderedColumn(totals, report, 1);
    RenderedColumn(Reindex(fee, index), report, 2);
    RenderedColumn(Reindex(daily, index), report, 3);
    var sales, tax := SalesTaxColumns(totals);
    RenderedColumn(sales, report, 4);
    RenderedColumn(tax, report, 5);
  }

  /** The sales and tax columns the frame computes hold `Sales` and `Tax`
      of each card-to-card value. */
  lemma SalesTaxColumns(totals: seq<real>) returns (sales: seq<real>, tax: seq<real>)
    ensures |sales| == |totals| && |tax| == |totals|
    ensures forall i :: 0 <= i < |totals| ==> sales[i] == Sales(totals[i]) && tax[i] == Tax(totals[i])
    ensures SalesColumn(Numbers(totals)) == Numbers(sales)
    ensures TaxColumn(Numbers(totals), SalesColumn(Numbers(totals))) == Numbers(tax)
  {
    var n := |totals|;
    sales := seq(n, i requires 0 <= i < n => Sales(totals[i]));
    tax := seq(n, i requires 0 <= i < n => Tax(totals[i]));
    var c := Numbers(totals);
    forall i | 0 <= i < n ensures SalesColumn(c)[i] == Numbers(sales)[i] {
    }
    forall i | 0 <= i < n ensures TaxColumn(c, SalesColumn(c))[i] == Numbers(tax)[i] {
    }
  }

  /** A column of numbers, formatted, is column `k` of the rendered report
      when its numbers are the amounts rendered there. */
  lemma RenderedColumn(xs: seq<real>, report: seq<Summary>, k: nat)
    requires 1 <= k < 6 && |xs| == |report|
    requires forall i :: 0 <= i < |report| ==> Render(report[i])[k] == Text(Format(xs[i]))
    ensures FormatAll(Numbers(xs)) == Table(report)[k]
  {
  }
}
