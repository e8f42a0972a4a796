/** A worked ledger: one card-to-card deposit and a fee on day 1, a fee
    alone on day 2, and an undated card-to-card row. The report has a
    single line, for day 1; day 2 is dropped with its fee, and the undated
    row counts nowhere. */
module Scenario {
  import opened Ledger
  import opened Grouping
  import opened Report
  import opened Display

  /** A key whose first character never occurs in the text is not contained
      in it. */
  lemma AbsentKey(text: string, key: string)
    requires key != [] && forall i :: 0 <= i < |text| ==> text[i] != key[0]
    ensures !Contains(text, key)
  {
    forall i | OccursAt(text, key, i) ensures text[i] == key[0] {
      assert text[i..i + |key|][0] == text[i];
    }
  }

  const Deposit := Row(Some(1), Some("انتقال از"), None, Some(1100.0))
  const FeeOne := Row(Some(1), Some("کارمزد"), Some(50.0), None)
  const FeeTwo := Row(Some(2), Some("کارمزد"), Some(10.0), None)
  const Undated := Row(None, Some("انتقال از"), None, Some(7.0))

  /** Each description matches its own keyword and no other. */
  lemma Classified()
    ensures InCategory(Deposit, CardToCard) && !InCategory(Deposit, Fee) && !InCategory(Deposit, DailyWithdrawal)
    ensures forall r :: r in [FeeOne, FeeTwo] ==>
      InCategory(r, Fee) && !InCategory(r, CardToCard) && !InCategory(r, DailyWithdrawal)
  {
    AbsentKey("انتقال از", "کارمزد");
  }

  /** The three grouped sums of the dated rows. */
  lemma GroupedSums()
    ensures GroupSum([Deposit, FeeOne, FeeTwo], CardToCard) == [Entry(1, 1100.0)]
    ensures GroupSum([Deposit, FeeOne, FeeTwo], Fee) == [Entry(1, 50.0), Entry(2, 10.0)]
    ensures GroupSum([Deposit, FeeOne, FeeTwo], DailyWithdrawal) == []
  {
    Classified();
    assert [] + [Deposit] == [Deposit] && [Deposit] + [FeeOne] == [Deposit, FeeOne];
    assert [Deposit, FeeOne] + [FeeTwo] == [Deposit, FeeOne, FeeTwo];
    GroupSumSnoc([], Deposit, CardToCard);
    GroupSumSnoc([Deposit], FeeOne, CardToCard);
    GroupSumSnoc([Deposit, FeeOne], FeeTwo, CardToCard);
    GroupSumSnoc([], Deposit, Fee);
    GroupSumSnoc([Deposit], FeeOne, Fee);
    GroupSumSnoc([Deposit, FeeOne], FeeTwo, Fee);
    assert Accumulate([Entry(1, 50.0)], 2, 10.0) == [Entry(1, 50.0)] + Accumulate([], 2, 10.0);
    GroupSumSnoc([], Deposit, DailyWithdrawal);
    GroupSumSnoc([Deposit], FeeOne, DailyWithdrawal);
    GroupSumSnoc([Deposit, FeeOne], FeeTwo, DailyWithdrawal);
  }

  /** The numeric report of the worked ledger. */
  lemma TwoDays()
    ensures Summarize([Deposit, FeeOne, FeeTwo, Undated]) == [Summary(1, 1100.0, 50.0, 0.0, 1000.0, 100.0)]
  {
    assert DropUndated([Undated]) == [];
    assert DropUndated([FeeTwo, Undated]) == [FeeTwo] + DropUndated([Undated]);
    assert DropUndated([FeeOne, FeeTwo, Undated]) == [FeeOne] + DropUndated([FeeTwo, Undated]);
    assert DropUndated([Deposit, FeeOne, FeeTwo, Undated]) == [Deposit] + DropUndated([FeeOne, FeeTwo, Undated]);
    var df := DropUndated([Deposit, FeeOne, FeeTwo, Undated]);
    assert df == [Deposit, FeeOne, FeeTwo];
    GroupedSums();
    assert Assemble([Entry(1, 1100.0)], [Entry(1, 50.0), Entry(2, 10.0)], [])[0]
        == Summary(1, 1100.0, Lookup([Entry(1, 50.0), Entry(2, 10.0)], 1), Lookup([], 1), Sales(1100.0), Tax(1100.0));
    assert Lookup([Entry(1, 50.0), Entry(2, 10.0)], 1) == 50.0;
    assert Lookup([], 1) == 0.0;
    assert Sales(1100.0) == 1000.0 && Tax(1100.0) == 100.0;
    var report := Summarize([Deposit, FeeOne, FeeTwo, Undated]);
    assert |report| == 1 && report[0] == Summary(1, 1100.0, 50.0, 0.0, 1000.0, 100.0);
  }

  /** Its line as displayed. */
  lemma TwoDaysShown()
    ensures Render(Summary(1, 1100.0, 50.0, 0.0, 1000.0, 100.0))
         == [At(1), Text("1,100.00"), Text("50.00"), Text("0.00"), Text("1,000.00"), Text("100.00")]
  {
    assert RoundHalfUp(110000.0) == 110000;
    assert Grouped(1100) == "1,100";
    assert Format(1100.0) == "1,100.00";
    assert RoundHalfUp(5000.0) == 5000;
    assert Format(50.0) == "50.00";
    assert RoundHalfUp(0.0) == 0;
    assert Format(0.0) == "0.00";
    assert RoundHalfUp(100000.0) == 100000;
    assert Grouped(1000) == "1,000";
    assert Format(1000.0) == "1,000.00";
    assert RoundHalfUp(10000.0) == 10000;
    assert Format(100.0) == "100.00";
  }
}
