/** The period normaliser: maps a statement date and a reporting quarter
    offset onto an adjusted fiscal (quarter, year) pair. */
module Periods {
  import opened Wrappers
  import opened Records

  type Quarter = q: int | 1 <= q <= 4 witness 1

  /** A fiscal period after offset adjustment. */
  datatype FiscalPeriod = FiscalPeriod(quarter: int, year: int)

  /** The period that follows `p`; the year rolls over after the fourth quarter. */
  function Next(p: FiscalPeriod): FiscalPeriod {
    if p.quarter == 4 then FiscalPeriod(1, p.year + 1) else FiscalPeriod(p.quarter + 1, p.year)
  }

  /** The calendar quarter a month falls in. */
  function CalendarQuarter(month: Month): (q: Quarter)
    ensures 3 * (q - 1) < month <= 3 * q
  {
    if month in [1, 2, 3] then 1
    else if month in [4, 5, 6] then 2
    else if month in [7, 8, 9] then 3
    else 4
  }

  /** The three-slot window built around the calendar quarter: the period
      before, the period itself, and the period after. */
  function Window(q: Quarter, year: int): (w: seq<FiscalPeriod>)
    ensures |w| == 3
    ensures w[1] == FiscalPeriod(q, year)
    ensures Next(w[0]) == w[1] && Next(w[1]) == w[2]
    ensures forall i :: 0 <= i < 3 ==> 1 <= w[i].quarter <= 4
  {
    if q == 1 then [FiscalPeriod(4, year - 1), FiscalPeriod(1, year), FiscalPeriod(2, year)]
    else if q == 4 then [FiscalPeriod(3, year), FiscalPeriod(4, year), FiscalPeriod(1, year + 1)]
    else [FiscalPeriod(q - 1, year), FiscalPeriod(q, year), FiscalPeriod(q + 1, year)]
  }

  /** Python list indexing: a negative index counts from the end, and an
      index outside `-|s| .. |s|-1` raises. */
  function ListIndex<T>(s: seq<T>, i: int): (r: Result<T, StatementError>)
    ensures r.Success? <==> -|s| <= i < |s|
    ensures r.Success? ==> r.value == s[if i < 0 then |s| + i else i]
  {
    if 0 <= i < |s| then Success(s[i])
    else if -|s| <= i < 0 then Success(s[|s| + i])
    else Failure(IndexOutOfRange)
  }

  /** The unadjusted calendar period of a statement date. */
  function CalendarPeriod(date: Date): FiscalPeriod {
    FiscalPeriod(CalendarQuarter(date.month), date.year)
  }

  /** The adjusted (quarter, year) of a statement dated `date` under `offset`:
      slot `offset + 1` of the window, with Python's negative indexing. */
  function AdjustedQuarterAndYear(date: Date, offset: int): (r: Result<FiscalPeriod, StatementError>)
    ensures r.Success? <==> -4 <= offset <= 1
    ensures offset >= 2 || offset <= -5 ==> r == Failure(IndexOutOfRange)
    ensures offset == 0 ==> r == Success(CalendarPeriod(date))
    ensures offset == 1 ==> r == Success(Next(CalendarPeriod(date)))
    ensures offset == -1 ==> r.Success? && Next(r.value) == CalendarPeriod(date)
    ensures -1 <= offset <= 1 ==> 1 <= r.value.quarter <= 4 && date.year - 1 <= r.value.year <= date.year + 1
  {
    var q := CalendarQuarter(date.month);
    ListIndex(Window(q, date.year), offset + 1)
  }

  /** Offsets that index a valid window slot from the front. */
  predicate ValidOffset(offset: int) {
    -1 <= offset <= 1
  }

  /** First-quarter window: the period before is the previous year's fourth quarter. */
  lemma FirstQuarterWindow(date: Date, offset: int)
    requires CalendarQuarter(date.month) == 1 && ValidOffset(offset)
    ensures offset == -1 ==> AdjustedQuarterAndYear(date, offset) == Success(FiscalPeriod(4, date.year - 1))
    ensures offset == 0 ==> AdjustedQuarterAndYear(date, offset) == Success(FiscalPeriod(1, date.year))
    ensures offset == 1 ==> AdjustedQuarterAndYear(date, offset) == Success(FiscalPeriod(2, date.year))
  {
  }

  /** Fourth-quarter window: the period after is the next year's first quarter. */
  lemma FourthQuarterWindow(date: Date, offset: int)
    requires CalendarQuarter(date.month) == 4 && ValidOffset(offset)
    ensures offset == -1 ==> AdjustedQuarterAndYear(date, offset) == Success(FiscalPeriod(3, date.year))
    ensures offset == 0 ==> AdjustedQuarterAndYear(date, offset) == Success(FiscalPeriod(4, date.year))
    ensures offset == 1 ==> AdjustedQuarterAndYear(date, offset) == Success(FiscalPeriod(1, date.year + 1))
  {
  }

  /** Second and third quarters: the quarter moves by the offset inside the same year. */
  lemma MiddleQuarterWindow(date: Date, offset: int)
    requires CalendarQuarter(date.month) in {2, 3} && ValidOffset(offset)
    ensures AdjustedQuarterAndYear(date, offset) == Success(FiscalPeriod(CalendarQuarter(date.month) + offset, date.year))
  {
  }

  /** Offsets -4 .. -2 do not fail: they wrap round the window to offset + 3. */
  lemma NegativeOffsetWraps(date: Date, offset: int)
    requires -4 <= offset <= -2
    ensures AdjustedQuarterAndYear(date, offset) == AdjustedQuarterAndYear(date, offset + 3)
  {
  }
}
