/** Per-date sums of one category: `df[mask].groupby('Date')[column].sum()`
    and the zero-filled `reindex` that aligns one grouped sum on another's
    dates. A grouped sum is a sequence of entries in ascending date order,
    as pandas sorts group keys. */
module Grouping {
  import opened Ledger

  /** One element of a grouped sum: a date and the total for that date. */
  datatype Entry = Entry(date: Date, total: real)

  /** Strictly ascending dates, so each date appears at most once. */
  predicate Ascending(s: seq<Entry>)
  {
    forall i, j :: 0 <= i < j < |s| ==> s[i].date < s[j].date
  }

  function Dates(s: seq<Entry>): set<Date>
  {
    set e | e in s :: e.date
  }

  /** The value a grouped sum holds for `d`, or 0 when `d` is not in its
      index: the `fill_value=0` of `reindex`. */
  function Lookup(s: seq<Entry>, d: Date): real
  {
    if s == [] then 0.0
    else if s[0].date == d then s[0].total
    else Lookup(s[1..], d)
  }

  /** The index of a grouped sum. */
  function Index(s: seq<Entry>): seq<Date>
  {
    seq(|s|, i requires 0 <= i < |s| => s[i].date)
  }

  /** The values of a grouped sum, in index order. */
  function Totals(s: seq<Entry>): seq<real>
  {
    seq(|s|, i requires 0 <= i < |s| => s[i].total)
  }

  /** `series.reindex(index, fill_value=0).values`. */
  function Reindex(s: seq<Entry>, index: seq<Date>): seq<real>
  {
    seq(|index|, i requires 0 <= i < |index| => Lookup(s, index[i]))
  }

  lemma {:induction false} LookupAbsent(s: seq<Entry>, d: Date)
    requires d !in Dates(s)
    ensures Lookup(s, d) == 0.0
  {
    if s != [] {
      assert s[0] in s;
      assert Dates(s[1..]) <= Dates(s) by {
        forall x | x in Dates(s[1..]) ensures x in Dates(s) {
          var e :| e in s[1..] && e.date == x;
          assert e in s;
        }
      }
      LookupAbsent(s[1..], d);
    }
  }

  lemma {:induction false} LookupAt(s: seq<Entry>, i: int)
    requires Ascending(s) && 0 <= i < |s|
    ensures Lookup(s, s[i].date) == s[i].total
  {
    if i > 0 {
      LookupAt(s[1..], i - 1);
    }
  }

  lemma DatesOfCons(e: Entry, s: seq<Entry>)
    ensures Dates([e] + s) == {e.date} + Dates(s)
  {
    assert forall x :: x in [e] + s <==> x == e || x in s;
  }

  /** In an ascending sequence the first date precedes every later one. */
  lemma HeadPrecedes(s: seq<Entry>)
    requires Ascending(s) && s != []
    ensures forall x :: x in Dates(s[1..]) ==> s[0].date < x
  {
    forall x | x in Dates(s[1..]) ensures s[0].date < x {
      var e :| e in s[1..] && e.date == x;
      var k :| 0 <= k < |s[1..]| && s[1..][k] == e;
      assert s[k + 1] == e;
    }
  }

  lemma ConsAscending(e: Entry, s: seq<Entry>)
    requires Ascending(s)
    requires forall x :: x in Dates(s) ==> e.date < x
    ensures Ascending([e] + s)
  {
    assert forall k :: 0 <= k < |s| ==> s[k].date in Dates(s);
  }

  /** Ascending sequences have as many entries as distinct dates. */
  lemma {:induction false} AscendingCount(s: seq<Entry>)
    requires Ascending(s)
    ensures |Dates(s)| == |s|
  {
    if s != [] {
      assert s == [s[0]] + s[1..];
      DatesOfCons(s[0], s[1..]);
      HeadPrecedes(s);
      AscendingCount(s[1..]);
    }
  }

  /** Adds `amount` to the entry of date `d`, inserting a new entry in date
      order when `d` has none yet: one step of a grouped sum. */
  function Accumulate(s: seq<Entry>, d: Date, amount: real): seq<Entry>
  {
    if s == [] then [Entry(d, amount)]
    else if d < s[0].date then [Entry(d, amount)] + s
    else if d == s[0].date then [Entry(d, s[0].total + amount)] + s[1..]
    else [s[0]] + Accumulate(s[1..], d, amount)
  }

  lemma LookupCons(e: Entry, s: seq<Entry>)
    ensures forall x :: Lookup([e] + s, x) == if e.date == x then e.total else Lookup(s, x)
  {
    assert ([e] + s)[1..] == s;
  }

  /** Accumulating adds `d` to the index and no other date. */
  lemma {:induction false} AccumulateDates(s: seq<Entry>, d: Date, amount: real)
    ensures Dates(Accumulate(s, d, amount)) == Dates(s) + {d}
  {
    if s != [] {
      assert s == [s[0]] + s[1..];
      DatesOfCons(s[0], s[1..]);
      if d < s[0].date {
        DatesOfCons(Entry(d, amount), s);
      } else if d == s[0].date {
        DatesOfCons(Entry(d, s[0].total + amount), s[1..]);
      } else {
        AccumulateDates(s[1..], d, amount);
        DatesOfCons(s[0], Accumulate(s[1..], d, amount));
      }
    }
  }

  /** Accumulating keeps the dates ascending. */
  lemma {:induction false} AccumulateAscending(s: seq<Entry>, d: Date, amount: real)
    requires Ascending(s)
    ensures Ascending(Accumulate(s, d, amount))
  {
    if s != [] {
      assert s == [s[0]] + s[1..];
      HeadPrecedes(s);
      if d < s[0].date {
        DatesOfCons(s[0], s[1..]);
        ConsAscending(Entry(d, amount), s);
      } else if d == s[0].date {
        ConsAscending(Entry(d, s[0].total + amount), s[1..]);
      } else {
        var rest := Accumulate(s[1..], d, amount);
        AccumulateAscending(s[1..], d, amount);
        AccumulateDates(s[1..], d, amount);
        ConsAscending(s[0], rest);
      }
    }
  }

  /** Accumulating changes the value at `d` alone, by `amount`. */
  lemma {:induction false} AccumulateAdds(s: seq<Entry>, d: Date, amount: real)
    requires Ascending(s)
    ensures forall x :: Lookup(Accumulate(s, d, amount), x)
                     == Lookup(s, x) + (if x == d then amount else 0.0)
  {
    if s == [] {
      LookupCons(Entry(d, amount), []);
    } else {
      assert s == [s[0]] + s[1..];
      LookupCons(s[0], s[1..]);
      if d < s[0].date {
        DatesOfCons(s[0], s[1..]);
        HeadPrecedes(s);
        LookupAbsent(s, d);
        LookupCons(Entry(d, amount), s);
      } else if d == s[0].date {
        DatesOfCons(s[0], s[1..]);
        HeadPrecedes(s);
        LookupAbsent(s[1..], d);
        LookupCons(Entry(d, s[0].total + amount), s[1..]);
      } else {
        AccumulateAdds(s[1..], d, amount);
        LookupCons(s[0], Accumulate(s[1..], d, amount));
      }
    }
  }

  /** The amount one row adds to the bucket of category `c` on date `d`. */
  function Share(r: Row, c: Category, d: Date): real
  {
    if r.date == Some(d) && InCategory(r, c) then Amount(c, r) else 0.0
  }

  /** The reference meaning of a daily bucket: the sum, over all rows dated
      `d` whose description matches the keyword of `c`, of the amount
      column `c` sums. */
  function SumOn(rows: seq<Row>, c: Category, d: Date): real
  {
    if rows == [] then 0.0 else Share(rows[0], c, d) + SumOn(rows[1..], c, d)
  }

  /** A row that takes part in the grouped sum of `c`: it has a date (pandas
      drops NaN group keys) and matches the keyword of `c`. */
  predicate Selected(r: Row, c: Category)
  {
    r.date.Some? && InCategory(r, c)
  }

  /** The distinct dates among the rows selected for `c`. */
  function SelectedDates(rows: seq<Row>, c: Category): set<Date>
  {
    set r | r in rows && Selected(r, c) :: r.date.value
  }

  lemma {:induction false} SumOnAppend(rows: seq<Row>, r: Row, c: Category)
    ensures forall d :: SumOn(rows + [r], c, d) == SumOn(rows, c, d) + Share(r, c, d)
  {
    if rows != [] {
      SumOnAppend(rows[1..], r, c);
      assert (rows + [r])[1..] == rows[1..] + [r];
    }
  }

  /** A date on which no row of `c` is selected has a zero bucket. */
  lemma {:induction false} SumOnAbsent(rows: seq<Row>, c: Category, d: Date)
    requires d !in SelectedDates(rows, c)
    ensures SumOn(rows, c, d) == 0.0
  {
    if rows != [] {
      assert rows[0] in rows;
      assert SelectedDates(rows[1..], c) <= SelectedDates(rows, c) by {
        forall x | x in SelectedDates(rows[1..], c) ensures x in SelectedDates(rows, c) {
          var r :| r in rows[1..] && Selected(r, c) && r.date.value == x;
          assert r in rows;
        }
      }
      SumOnAbsent(rows[1..], c, d);
    }
  }

  lemma SelectedDatesAppend(rows: seq<Row>, r: Row, c: Category)
    ensures SelectedDates(rows + [r], c)
         == SelectedDates(rows, c) + (if Selected(r, c) then {r.date.value} else {})
  {
    assert forall x :: x in rows + [r] <==> x in rows || x == r;
  }

  /** `df[mask].groupby('Date')[column].sum()`, folding the rows in order. */
  function GroupSum(rows: seq<Row>, c: Category): seq<Entry>
    decreases |rows|
  {
    if rows == [] then
      []
    else
      var init, last := rows[..|rows| - 1], rows[|rows| - 1];
      if Selected(last, c) then Accumulate(GroupSum(init, c), last.date.value, Amount(c, last))
      else GroupSum(init, c)
  }

  /** A grouped sum has one entry per selected date, in ascending order, and
      the entry of each date holds that date's bucket. */
  lemma {:induction false} GroupSumMeaning(rows: seq<Row>, c: Category)
    ensures Ascending(GroupSum(rows, c))
    ensures Dates(GroupSum(rows, c)) == SelectedDates(rows, c)
    ensures forall d :: Lookup(GroupSum(rows, c), d) == SumOn(rows, c, d)
    decreases |rows|
  {
    if rows != [] {
      var init, last := rows[..|rows| - 1], rows[|rows| - 1];
      assert rows == init + [last];
      GroupSumMeaning(init, c);
      SumOnAppend(init, last, c);
      SelectedDatesAppend(init, last, c);
      if Selected(last, c) {
        AccumulateDates(GroupSum(init, c), last.date.value, Amount(c, last));
        AccumulateAscending(GroupSum(init, c), last.date.value, Amount(c, last));
        AccumulateAdds(GroupSum(init, c), last.date.value, Amount(c, last));
      }
    }
  }

  /** One step of the fold: the grouped sum after one more row. */
  lemma GroupSumSnoc(rows: seq<Row>, y: Row, c: Category)
    ensures GroupSum(rows + [y], c)
         == if Selected(y, c) then Accumulate(GroupSum(rows, c), y.date.value, Amount(c, y))
            else GroupSum(rows, c)
  {
    assert (rows + [y])[..|rows + [y]| - 1] == rows;
  }

  /** A row not selected for `c` can be removed without changing the grouped
      sum of `c`, wherever it stands. */
  lemma {:induction false} GroupSumSkips(a: seq<Row>, r: Row, b: seq<Row>, c: Category)
    requires !Selected(r, c)
    ensures GroupSum(a + [r] + b, c) == GroupSum(a + b, c)
    decreases |b|
  {
    if b == [] {
      assert a + [r] + b == a + [r];
      GroupSumSnoc(a, r, c);
      assert a + b == a;
    } else {
      var b', y := b[..|b| - 1], b[|b| - 1];
      GroupSumSkips(a, r, b', c);
      assert a + [r] + b == (a + [r] + b') + [y];
      assert a + b == (a + b') + [y];
      GroupSumSnoc(a + [r] + b', y, c);
      GroupSumSnoc(a + b', y, c);
    }
  }

  /** Dropping the undated rows first changes no grouped sum: pandas'
      groupby leaves out rows whose key is missing on its own. */
  lemma {:induction false} GroupSumIgnoresUndated(rows: seq<Row>, c: Category)
    ensures GroupSum(DropUndated(rows), c) == GroupSum(rows, c)
  {
    DroppedPrefix([], rows, c);
    assert [] + rows == rows;
    assert [] + DropUndated(rows) == DropUndated(rows);
  }

  lemma {:induction false} DroppedPrefix(p: seq<Row>, q: seq<Row>, c: Category)
    ensures GroupSum(p + DropUndated(q), c) == GroupSum(p + q, c)
    decreases |q|
  {
    if q != [] {
      var x, q' := q[0], q[1..];
      var kept := DropUndated(q');
      assert DropUndated(q) == (if x.date.Some? then [x] else []) + kept;
      DroppedPrefix(if x.date.Some? then p + [x] else p, q', c);
      if x.date.Some? {
        assert p + DropUndated(q) == (p + [x]) + kept;
        assert p + q == (p + [x]) + q';
      } else {
        assert p + DropUndated(q) == p + kept;
        assert p + q == p + [x] + q';
        GroupSumSkips(p, x, q', c);
      }
    }
  }
}
