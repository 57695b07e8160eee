/** The cash-flow statement: the one line the engine uses, capital
    expenditure, with the same period normalisation as the other statements,
    and the quarterly-to-annual combine that sums it. */
module CashFlowStatements {
  import opened Wrappers
  import opened Records
  import opened Periods
  import Item = LineItems

  datatype CashFlowStatement = CashFlowStatement(
    ticker: string,
    statementDate: Date,
    quarter: int,
    year: int,
    capex: real)

  /** Builds a cash-flow statement from one raw record. */
  function DeriveCashFlowStatement(ticker: string, offset: int, rec: RawRecord): (r: Result<CashFlowStatement, StatementError>)
    ensures r.Success? <==>
      rec.statementDate.Some? && -4 <= offset <= 1 && Item.CapitalExpenditure in rec.values
    ensures rec.statementDate.None? ==> r == Failure(MissingDate)
    ensures rec.statementDate.Some? && !(-4 <= offset <= 1) ==> r == Failure(IndexOutOfRange)
    ensures rec.statementDate.Some? && -4 <= offset <= 1 && Item.CapitalExpenditure !in rec.values ==>
      r == Failure(MissingField(Item.CapitalExpenditure))
    ensures r.Success? ==>
      && r.value.ticker == ticker
      && r.value.statementDate == rec.statementDate.value
      && AdjustedQuarterAndYear(r.value.statementDate, offset) == Success(FiscalPeriod(r.value.quarter, r.value.year))
      && r.value.capex == rec.values[Item.CapitalExpenditure]
  {
    if rec.statementDate.None? then Failure(MissingDate)
    else
      var date := rec.statementDate.value;
      var period :- AdjustedQuarterAndYear(date, offset);
      if Item.CapitalExpenditure !in rec.values then Failure(MissingField(Item.CapitalExpenditure))
      else Success(CashFlowStatement(ticker, date, period.quarter, period.year, rec.values[Item.CapitalExpenditure]))
  }

  /** The capital expenditure of a list of statements, summed. */
  function TotalCapex(cs: seq<CashFlowStatement>): real {
    if |cs| == 0 then 0.0 else cs[0].capex + TotalCapex(cs[1..])
  }

  /** Summing capex over two lists in turn is summing over their concatenation. */
  lemma {:induction false} TotalCapexAppend(a: seq<CashFlowStatement>, b: seq<CashFlowStatement>)
    ensures TotalCapex(a + b) == TotalCapex(a) + TotalCapex(b)
  {
    if |a| == 0 {
      assert a + b == b;
    } else {
      assert (a + b)[1..] == a[1..] + b;
      TotalCapexAppend(a[1..], b);
    }
  }

  function CashFlowDates(cs: seq<CashFlowStatement>): (ds: seq<Date>)
    ensures |ds| == |cs| && forall i :: 0 <= i < |cs| ==> ds[i] == cs[i].statementDate
  {
    seq(|cs|, i requires 0 <= i < |cs| => cs[i].statementDate)
  }

  /** Combines quarterly statements into the raw record of one annual
      statement: the latest date and the summed capital expenditure. An
      empty list has no latest date and is refused. */
  function CombineCashFlowStatements(cs: seq<CashFlowStatement>): (r: Result<RawRecord, StatementError>)
    ensures r.Success? <==> |cs| > 0
    ensures r.Failure? ==> r.error == EmptySequence
    ensures r.Success? ==>
      && r.value.statementDate.Some?
      && r.value.statementDate.value in CashFlowDates(cs)
      && (forall i :: 0 <= i < |cs| ==> NotAfter(cs[i].statementDate, r.value.statementDate.value))
    ensures r.Success? ==>
      && Item.CapitalExpenditure in r.value.values
      && r.value.values[Item.CapitalExpenditure] == TotalCapex(cs)
  {
    if |cs| == 0 then Failure(EmptySequence)
    else Success(RawRecord(Some(Latest(CashFlowDates(cs))), map[Item.CapitalExpenditure := TotalCapex(cs)]))
  }

  /** Deriving a statement from the combined record of a non-empty run of
      quarters succeeds, carries their summed capex, and is dated at the
      latest of them. */
  lemma AnnualisedCashFlow(ticker: string, offset: int, cs: seq<CashFlowStatement>)
    requires |cs| > 0 && -4 <= offset <= 1
    ensures DeriveCashFlowStatement(ticker, offset, CombineCashFlowStatements(cs).value).Success?
    ensures var a := DeriveCashFlowStatement(ticker, offset, CombineCashFlowStatements(cs).value).value;
      && a.capex == TotalCapex(cs)
      && a.statementDate in CashFlowDates(cs)
      && forall i :: 0 <= i < |cs| ==> NotAfter(cs[i].statementDate, a.statementDate)
  {
  }
}
