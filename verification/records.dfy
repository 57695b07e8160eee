/** Values shared by all statements: calendar dates, the raw per-line-item
    records the derivers consume, the error kinds construction can raise,
    and the flat rows handed to the reporting sink. */
module Records {
  import opened Wrappers
  import opened LineItems

  type Month = m: int | 1 <= m <= 12 witness 1
  type Day = d: int | 1 <= d <= 31 witness 1

  /** A statement date: the parts of a calendar date the engine reads. */
  datatype Date = Date(year: int, month: Month, day: Day)

  /** Chronological order on dates (year, then month, then day). */
  predicate NotAfter(a: Date, b: Date) {
    || a.year < b.year
    || (a.year == b.year && a.month < b.month)
    || (a.year == b.year && a.month == b.month && a.day <= b.day)
  }

  /** The latest of a non-empty list of dates (Python's `max` on datetimes). */
  function Latest(ds: seq<Date>): (d: Date)
    requires |ds| > 0
    ensures d in ds
    ensures forall i :: 0 <= i < |ds| ==> NotAfter(ds[i], d)
  {
    if |ds| == 1 then ds[0]
    else
      var later := Latest(ds[1..]);
      if NotAfter(ds[0], later) then later else ds[0]
  }

  /** The ways constructing a statement or a ratio set can abort. */
  datatype StatementError =
    | MissingDate                         // the record has no statement date
    | MissingField(item: LineItem)        // a required line item is absent from a record
    | IndexOutOfRange                     // the quarter offset falls outside the window
    | EmptySequence                       // `max` of no dates
    | IntegrityError(ticker: string, quarter: int, year: int)  // assets != liabilities + equity
    | UnknownAttribute                    // a value supplied for a name that is not an amount
    | MissingYear(year: int)              // no year-end balance sheet for a year
    | MissingPrice(date: Date)            // no market close for a balance-sheet date
    | DivisionByZero                      // an unguarded ratio denominator is zero

  /** One raw record: its statement date (when present) and its numeric line items. */
  datatype RawRecord = RawRecord(statementDate: Option<Date>, values: map<LineItem, real>)

  /** The first key of `keys` that `values` lacks, if any. */
  function FirstMissing(values: map<LineItem, real>, keys: seq<LineItem>): (r: Option<LineItem>)
    ensures r.Some? ==> r.value in keys && r.value !in values
    ensures |keys| > 0 && keys[0] !in values ==> r == Some(keys[0])
  {
    if |keys| == 0 then None
    else if keys[0] !in values then Some(keys[0])
    else FirstMissing(values, keys[1..])
  }

  /** The missing key reported is the earliest one: every key before it is present. */
  lemma {:induction false} FirstMissingIsFirst(values: map<LineItem, real>, keys: seq<LineItem>)
    requires FirstMissing(values, keys).Some?
    ensures exists i :: 0 <= i < |keys| && keys[i] == FirstMissing(values, keys).value
                        && forall j :: 0 <= j < i ==> keys[j] in values
  {
    if keys[0] in values {
      FirstMissingIsFirst(values, keys[1..]);
      var i :| 0 <= i < |keys[1..]| && keys[1..][i] == FirstMissing(values, keys[1..]).value
        && forall j :: 0 <= j < i ==> keys[1..][j] in values;
      assert keys[i + 1] == FirstMissing(values, keys).value;
      assert forall j :: 0 <= j < i + 1 ==> keys[j] in values by {
        forall j | 0 <= j < i + 1 ensures keys[j] in values {
          if j > 0 { assert keys[j] == keys[1..][j - 1]; }
        }
      }
    } else {
      assert keys[0] == FirstMissing(values, keys).value;
    }
  }

  /** Looking through two key lists in turn finds the first list's missing
      key if it has one, and otherwise the second's. */
  lemma {:induction false} FirstMissingConcat(values: map<LineItem, real>, a: seq<LineItem>, b: seq<LineItem>)
    ensures FirstMissing(values, a + b)
         == if FirstMissing(values, a).Some? then FirstMissing(values, a) else FirstMissing(values, b)
  {
    if |a| == 0 {
      assert a + b == b;
    } else {
      assert (a + b)[0] == a[0];
      assert (a + b)[1..] == a[1..] + b;
      FirstMissingConcat(values, a[1..], b);
    }
  }

  /** No key is missing exactly when every key is present. */
  lemma {:induction false} FirstMissingNone(values: map<LineItem, real>, keys: seq<LineItem>)
    ensures FirstMissing(values, keys).None? <==> forall k :: k in keys ==> k in values
  {
    if |keys| > 0 && keys[0] in values {
      FirstMissingNone(values, keys[1..]);
      assert forall k :: k in keys ==> k == keys[0] || k in keys[1..];
    }
  }

  /** A statement line handed to the reporting sink. */
  datatype StatementRow = StatementRow(
    company: string,
    statementDate: Date,
    quarter: int,
    year: int,
    classification: string,
    account: string,
    amount: real)

}
