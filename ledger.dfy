/** The parsed bank-branch ledger as the report reads it: transaction rows,
    the three keyword categories, substring matching on descriptions, and
    the filter that drops rows without a date. */
module Ledger {

  datatype Option<+T> = None | Some(value: T)

  /** A value of the Date column, represented by its rank in the order
      pandas sorts the Date values (for text dates, string order): a value
      that sorts first is a smaller number. */
  type Date = int

  /** One row of the parsed export, reduced to the four columns the report
      reads. A cell the spreadsheet left empty (NaN) is None. */
  datatype Row = Row(date: Option<Date>, description: Option<string>,
                     withdrawal: Option<real>, deposit: Option<real>)

  /** The three report categories, each selected by one keyword. */
  datatype Category = CardToCard | Fee | DailyWithdrawal

  function Keyword(c: Category): string
  {
    match c
    case CardToCard => "انتقال از"
    case Fee => "کارمزد"
    case DailyWithdrawal => "انتقال وجه"
  }

  /** The amount a row adds to a category's daily sum: the Deposit column
      for card-to-card, the Withdrawal column for fees and daily
      withdrawals. An empty cell adds nothing, as a pandas sum skips NaN. */
  function Amount(c: Category, r: Row): real
  {
    var cell := if c == CardToCard then r.deposit else r.withdrawal;
    if cell.Some? then cell.value else 0.0
  }

  /** `key` occurs in `text` starting at position `i`. */
  predicate OccursAt(text: string, key: string, i: int)
  {
    0 <= i && i + |key| <= |text| && text[i..i + |key|] == key
  }

  lemma OccursAfterFirst(text: string, key: string)
    requires |text| > 0
    ensures forall i :: 0 <= i ==> (OccursAt(text[1..], key, i) <==> OccursAt(text, key, i + 1))
  {
    forall i | 0 <= i
      ensures OccursAt(text[1..], key, i) <==> OccursAt(text, key, i + 1)
    {
      if 0 <= i && i + |key| <= |text| - 1 {
        assert text[1..][i..i + |key|] == text[i + 1..i + 1 + |key|];
      }
    }
  }

  /** Plain substring test, searching from the left. */
  function Contains(text: string, key: string): (b: bool)
    ensures b <==> exists i :: OccursAt(text, key, i)
    decreases |text|
  {
    if |key| > |text| then
      false
    else if text[..|key|] == key then
      assert OccursAt(text, key, 0);
      true
    else
      OccursAfterFirst(text, key);
      assert !OccursAt(text, key, 0);
      assert forall i :: OccursAt(text, key, i) ==> OccursAt(text[1..], key, i - 1);
      Contains(text[1..], key)
  }

  /** `str.contains(key, na=False)`: a missing description never matches. */
  predicate Matches(description: Option<string>, key: string)
  {
    description.Some? && Contains(description.value, key)
  }

  /** The boolean mask of one category (app.py, lines 6-8). */
  predicate InCategory(r: Row, c: Category)
  {
    Matches(r.description, Keyword(c))
  }

  /** `df.dropna(subset=['Date'])`: keeps, in order, the rows that have a date. */
  function DropUndated(rows: seq<Row>): seq<Row>
  {
    if rows == [] then []
    else (if rows[0].date.Some? then [rows[0]] else []) + DropUndated(rows[1..])
  }

  /** The filter keeps every dated row as often as it occurs, and nothing else. */
  lemma {:induction false} DropUndatedKeeps(rows: seq<Row>)
    ensures forall r :: r in DropUndated(rows) ==> r.date.Some?
    ensures forall r :: multiset(DropUndated(rows))[r]
                     == if r.date.Some? then multiset(rows)[r] else 0
  {
    if rows != [] {
      assert rows == [rows[0]] + rows[1..];
      DropUndatedKeeps(rows[1..]);
    }
  }
}
