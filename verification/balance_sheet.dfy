/** The balance-sheet deriver: one quarterly raw record becomes a balance
    sheet whose "other" lines are residuals closing each subtotal, refused
    unless assets equal liabilities plus equity; and the sheet's report rows. */
module BalanceSheets {
  import opened Wrappers
  import opened Records
  import opened Periods
  import Item = LineItems

  datatype BalanceSheet = BalanceSheet(
    ticker: string,
    statementDate: Date,
    quarter: int,
    year: int,
    currentAssets: real,
    cashAndEquivalents: real,
    shortTermInvestments: real,
    accountsReceivable: real,
    inventory: real,
    otherCurrentAssets: real,
    nonCurrentAssets: real,
    netPpe: real,
    grossPpe: real,
    goodwill: real,
    otherIntangibles: real,
    otherNonCurrentAssets: real,
    totalAssets: real,
    currentLiabilities: real,
    accountsPayable: real,
    accruedLiabilities: real,
    otherCurrentLiabilities: real,
    nonCurrentLiabilities: real,
    longTermDebt: real,
    otherLongTermLiabilities: real,
    totalDebt: real,
    totalLiabilities: real,
    stockholdersEquity: real,
    minorityInterest: real,
    totalEquity: real,
    retainedEarnings: real,
    sharesOutstanding: real,
    totalLiabilitiesAndEquity: real)

  /** Raw keys the deriver reads unconditionally, in the order it reads them:
      current assets, non-current assets, liabilities, then equity. */
  const CurrentAssetFields: seq<Item.LineItem> := [
    Item.CurrentAssets, Item.CashAndCashEquivalents, Item.CashCashEquivalentsAndShortTermInvestments,
    Item.Receivables, Item.Inventory]
  const NonCurrentAssetFields: seq<Item.LineItem> := [
    Item.TotalNonCurrentAssets, Item.NetPPE, Item.GrossPPE, Item.Goodwill, Item.OtherIntangibleAssets]
  const LiabilityFields: seq<Item.LineItem> := [
    Item.CurrentLiabilities, Item.Payables, Item.CurrentAccruedExpenses,
    Item.TotalNonCurrentLiabilitiesNetMinorityInterest, Item.LongTermDebtAndCapitalLeaseObligation,
    Item.TotalDebt]
  const EquityFields: seq<Item.LineItem> := [
    Item.StockholdersEquity, Item.RetainedEarnings, Item.OrdinarySharesNumber]
  const BalanceFields: seq<Item.LineItem> :=
    CurrentAssetFields + NonCurrentAssetFields + LiabilityFields + EquityFields

  predicate HasCurrentAssetItems(v: map<Item.LineItem, real>) {
    && Item.CurrentAssets in v && Item.CashAndCashEquivalents in v
    && Item.CashCashEquivalentsAndShortTermInvestments in v && Item.Receivables in v
    && Item.Inventory in v
  }

  predicate HasNonCurrentAssetItems(v: map<Item.LineItem, real>) {
    && Item.TotalNonCurrentAssets in v && Item.NetPPE in v && Item.GrossPPE in v
    && Item.Goodwill in v && Item.OtherIntangibleAssets in v
  }

  predicate HasLiabilityItems(v: map<Item.LineItem, real>) {
    && Item.CurrentLiabilities in v && Item.Payables in v && Item.CurrentAccruedExpenses in v
    && Item.TotalNonCurrentLiabilitiesNetMinorityInterest in v
    && Item.LongTermDebtAndCapitalLeaseObligation in v && Item.TotalDebt in v
  }

  predicate HasEquityItems(v: map<Item.LineItem, real>) {
    Item.StockholdersEquity in v && Item.RetainedEarnings in v && Item.OrdinarySharesNumber in v
  }

  /** The record has every item the deriver reads unconditionally. */
  predicate HasBalanceItems(v: map<Item.LineItem, real>) {
    HasCurrentAssetItems(v) && HasNonCurrentAssetItems(v) && HasLiabilityItems(v) && HasEquityItems(v)
  }

  lemma CurrentAssetItemsPresent(v: map<Item.LineItem, real>)
    ensures HasCurrentAssetItems(v) <==> FirstMissing(v, CurrentAssetFields).None?
  {
    FirstMissingNone(v, CurrentAssetFields);
  }

  lemma NonCurrentAssetItemsPresent(v: map<Item.LineItem, real>)
    ensures HasNonCurrentAssetItems(v) <==> FirstMissing(v, NonCurrentAssetFields).None?
  {
    FirstMissingNone(v, NonCurrentAssetFields);
  }

  lemma LiabilityItemsPresent(v: map<Item.LineItem, real>)
    ensures HasLiabilityItems(v) <==> FirstMissing(v, LiabilityFields).None?
  {
    FirstMissingNone(v, LiabilityFields);
  }

  lemma EquityItemsPresent(v: map<Item.LineItem, real>)
    ensures HasEquityItems(v) <==> FirstMissing(v, EquityFields).None?
  {
    FirstMissingNone(v, EquityFields);
  }

  /** The required items are present exactly when none of them is missing. */
  lemma BalanceItemsPresent(v: map<Item.LineItem, real>)
    ensures HasBalanceItems(v) <==> FirstMissing(v, BalanceFields).None?
  {
    FirstMissingConcat(v, CurrentAssetFields + NonCurrentAssetFields + LiabilityFields, EquityFields);
    FirstMissingConcat(v, CurrentAssetFields + NonCurrentAssetFields, LiabilityFields);
    FirstMissingConcat(v, CurrentAssetFields, NonCurrentAssetFields);
    CurrentAssetItemsPresent(v);
    NonCurrentAssetItemsPresent(v);
    LiabilityItemsPresent(v);
    EquityItemsPresent(v);
  }

  /** The optional minority-interest line, zero when the record lacks it. */
  function MinorityOf(v: map<Item.LineItem, real>): real {
    if Item.MinorityInterest in v then v[Item.MinorityInterest] else 0.0
  }

  /** The record's subtotals satisfy assets = liabilities + equity. */
  predicate RawBalances(v: map<Item.LineItem, real>)
    requires HasBalanceItems(v)
  {
    v[Item.CurrentAssets] + v[Item.TotalNonCurrentAssets]
      == v[Item.CurrentLiabilities] + v[Item.TotalNonCurrentLiabilitiesNetMinorityInterest]
         + (v[Item.StockholdersEquity] + MinorityOf(v))
  }

  /** Every subtotal of the sheet is the sum of the lines shown under it. */
  predicate SubtotalsClose(b: BalanceSheet) {
    && b.cashAndEquivalents + b.shortTermInvestments + b.accountsReceivable + b.inventory
       + b.otherCurrentAssets == b.currentAssets
    && b.netPpe + b.goodwill + b.otherIntangibles + b.otherNonCurrentAssets == b.nonCurrentAssets
    && b.totalAssets == b.currentAssets + b.nonCurrentAssets
    && b.accountsPayable + b.accruedLiabilities + b.otherCurrentLiabilities == b.currentLiabilities
    && b.longTermDebt + b.otherLongTermLiabilities == b.nonCurrentLiabilities
    && b.totalLiabilities == b.currentLiabilities + b.nonCurrentLiabilities
    && b.totalEquity == b.stockholdersEquity + b.minorityInterest
    && b.totalLiabilitiesAndEquity == b.totalLiabilities + b.totalEquity
  }

  /** Assets equal liabilities plus equity. */
  predicate Balances(b: BalanceSheet) {
    b.totalAssets == b.totalLiabilitiesAndEquity
  }

  /** The sheet's reported lines are the record's values; short-term
      investments are what the cash-and-investments line holds beyond cash. */
  predicate SheetReadsFrom(b: BalanceSheet, v: map<Item.LineItem, real>)
    requires HasBalanceItems(v)
  {
    && b.currentAssets == v[Item.CurrentAssets]
    && b.cashAndEquivalents == v[Item.CashAndCashEquivalents]
    && b.shortTermInvestments == v[Item.CashCashEquivalentsAndShortTermInvestments] - v[Item.CashAndCashEquivalents]
    && b.accountsReceivable == v[Item.Receivables]
    && b.inventory == v[Item.Inventory]
    && b.nonCurrentAssets == v[Item.TotalNonCurrentAssets]
    && b.netPpe == v[Item.NetPPE]
    && b.grossPpe == v[Item.GrossPPE]
    && b.goodwill == v[Item.Goodwill]
    && b.otherIntangibles == v[Item.OtherIntangibleAssets]
    && b.currentLiabilities == v[Item.CurrentLiabilities]
    && b.accountsPayable == v[Item.Payables]
    && b.accruedLiabilities == v[Item.CurrentAccruedExpenses]
    && b.nonCurrentLiabilities == v[Item.TotalNonCurrentLiabilitiesNetMinorityInterest]
    && b.longTermDebt == v[Item.LongTermDebtAndCapitalLeaseObligation]
    && b.totalDebt == v[Item.TotalDebt]
    && b.stockholdersEquity == v[Item.StockholdersEquity]
    && b.minorityInterest == MinorityOf(v)
    && b.retainedEarnings == v[Item.RetainedEarnings]
    && b.sharesOutstanding == v[Item.OrdinarySharesNumber]
  }

  /** The sheet built from a record that has every required item, before the
      balance check. */
  function DeriveSheet(ticker: string, date: Date, period: FiscalPeriod, v: map<Item.LineItem, real>): (b: BalanceSheet)
    requires HasBalanceItems(v)
    ensures b.ticker == ticker && b.statementDate == date
    ensures b.quarter == period.quarter && b.year == period.year
    ensures SubtotalsClose(b) && SheetReadsFrom(b, v)
    ensures Balances(b) <==> RawBalances(v)
  {
    var currentAssets := v[Item.CurrentAssets];
    var cash := v[Item.CashAndCashEquivalents];
    var shortTerm := v[Item.CashCashEquivalentsAndShortTermInvestments] - cash;
    var receivables := v[Item.Receivables];
    var inventory := v[Item.Inventory];
    var nonCurrentAssets := v[Item.TotalNonCurrentAssets];
    var netPpe := v[Item.NetPPE];
    var goodwill := v[Item.Goodwill];
    var intangibles := v[Item.OtherIntangibleAssets];
    var currentLiabilities := v[Item.CurrentLiabilities];
    var payables := v[Item.Payables];
    var accrued := v[Item.CurrentAccruedExpenses];
    var nonCurrentLiabilities := v[Item.TotalNonCurrentLiabilitiesNetMinorityInterest];
    var longTermDebt := v[Item.LongTermDebtAndCapitalLeaseObligation];
    var totalLiabilities := currentLiabilities + nonCurrentLiabilities;
    var equity := v[Item.StockholdersEquity];
    var minority := MinorityOf(v);
    var totalEquity := equity + minority;
    BalanceSheet(
      ticker, date, period.quarter, period.year,
      currentAssets, cash, shortTerm, receivables, inventory,
      currentAssets - cash - shortTerm - receivables - inventory,
      nonCurrentAssets, netPpe, v[Item.GrossPPE], goodwill, intangibles,
      nonCurrentAssets - netPpe - goodwill - intangibles,
      currentAssets + nonCurrentAssets,
      currentLiabilities, payables, accrued, currentLiabilities - payables - accrued,
      nonCurrentLiabilities, longTermDebt, nonCurrentLiabilities - longTermDebt,
      v[Item.TotalDebt], totalLiabilities,
      equity, minority, totalEquity, v[Item.RetainedEarnings], v[Item.OrdinarySharesNumber],
      totalLiabilities + totalEquity)
  }

  /** Builds a balance sheet from one raw record; a sheet whose assets differ
      from its liabilities plus equity is refused with its ticker and period. */
  function DeriveBalanceSheet(ticker: string, offset: int, rec: RawRecord): (r: Result<BalanceSheet, StatementError>)
    ensures r.Success? <==>
      && rec.statementDate.Some? && -4 <= offset <= 1 && HasBalanceItems(rec.values)
      && RawBalances(rec.values)
    ensures rec.statementDate.None? ==> r == Failure(MissingDate)
    ensures rec.statementDate.Some? && !(-4 <= offset <= 1) ==> r == Failure(IndexOutOfRange)
    ensures rec.statementDate.Some? && -4 <= offset <= 1 && FirstMissing(rec.values, BalanceFields).Some? ==>
      r == Failure(MissingField(FirstMissing(rec.values, BalanceFields).value))
    ensures (rec.statementDate.Some? && -4 <= offset <= 1 && HasBalanceItems(rec.values)
             && !RawBalances(rec.values)) ==>
      var p := AdjustedQuarterAndYear(rec.statementDate.value, offset).value;
      r == Failure(IntegrityError(ticker, p.quarter, p.year))
    ensures r.Success? ==>
      && r.value.ticker == ticker
      && r.value.statementDate == rec.statementDate.value
      && AdjustedQuarterAndYear(r.value.statementDate, offset) == Success(FiscalPeriod(r.value.quarter, r.value.year))
      && SubtotalsClose(r.value)
      && Balances(r.value)
      && SheetReadsFrom(r.value, rec.values)
  {
    if rec.statementDate.None? then Failure(MissingDate)
    else
      var date := rec.statementDate.value;
      var period :- AdjustedQuarterAndYear(date, offset);
      BalanceItemsPresent(rec.values);
      match FirstMissing(rec.values, BalanceFields)
      case Some(k) => Failure(MissingField(k))
      case None =>
        CheckBalance(DeriveSheet(ticker, date, period, rec.values))
  }

  /** Refuses a sheet whose assets differ from its liabilities plus equity,
      naming the sheet's ticker and period. */
  function CheckBalance(b: BalanceSheet): (r: Result<BalanceSheet, StatementError>)
    ensures r.Success? <==> Balances(b)
    ensures r.Success? ==> r.value == b
    ensures r.Failure? ==> r.error == IntegrityError(b.ticker, b.quarter, b.year)
  {
    if b.totalAssets - b.totalLiabilitiesAndEquity != 0.0 then
      Failure(IntegrityError(b.ticker, b.quarter, b.year))
    else
      Success(b)
  }

  function SheetRow(b: BalanceSheet, classification: string, account: string, amount: real): StatementRow {
    StatementRow(b.ticker, b.statementDate, b.quarter, b.year, classification, account, amount)
  }

  /** The nine asset rows of a sheet's report; together they make up total assets. */
  function AssetRows(b: BalanceSheet): (rows: seq<StatementRow>)
    ensures |rows| == 9
    ensures forall i :: 0 <= i < 9 ==>
      rows[i].company == b.ticker && rows[i].statementDate == b.statementDate
      && rows[i].quarter == b.quarter && rows[i].year == b.year
    ensures SubtotalsClose(b) ==>
      rows[0].amount + rows[1].amount + rows[2].amount + rows[3].amount + rows[4].amount
      + rows[5].amount + rows[6].amount + rows[7].amount + rows[8].amount == b.totalAssets
  {
    [ SheetRow(b, "1 - Current Assets", "1.1 - Cash & Cash Equivalents", b.cashAndEquivalents),
      SheetRow(b, "1 - Current Assets", "1.2 - Short Term Investments", b.shortTermInvestments),
      SheetRow(b, "1 - Current Assets", "1.3 - Accounts Receivable", b.accountsReceivable),
      SheetRow(b, "1 - Current Assets", "1.4 - Inventory", b.inventory),
      SheetRow(b, "1 - Current Assets", "1.5 - Other Current Assets", b.otherCurrentAssets),
      SheetRow(b, "2 - Non-Current Assets", "2.1 - Net PPE", b.netPpe),
      SheetRow(b, "2 - Non-Current Assets", "2.2 - Goodwill", b.goodwill),
      SheetRow(b, "2 - Non-Current Assets", "2.3 - Other Intangible Assets", b.otherIntangibles),
      SheetRow(b, "2 - Non-Current Assets", "2.4 - Other Non-Current Assets", b.otherNonCurrentAssets)]
  }

  /** The five liability rows and the equity row of a sheet's report; together
      they make up total liabilities and equity, and the equity row carries
      total equity, minority interest included. */
  function ClaimRows(b: BalanceSheet): (rows: seq<StatementRow>)
    ensures |rows| == 6
    ensures forall i :: 0 <= i < 6 ==>
      rows[i].company == b.ticker && rows[i].statementDate == b.statementDate
      && rows[i].quarter == b.quarter && rows[i].year == b.year
    ensures rows[5].account == "5.1 - Stockholders Equity" && rows[5].amount == b.totalEquity
    ensures SubtotalsClose(b) ==>
      rows[0].amount + rows[1].amount + rows[2].amount + rows[3].amount + rows[4].amount
      + rows[5].amount == b.totalLiabilitiesAndEquity
  {
    [ SheetRow(b, "3 - Current Liabilities", "3.1 - Accounts Payable", b.accountsPayable),
      SheetRow(b, "3 - Current Liabilities", "3.2 - Accrued Liabilities", b.accruedLiabilities),
      SheetRow(b, "3 - Current Liabilities", "3.3 - Other Current Liabilities", b.otherCurrentLiabilities),
      SheetRow(b, "4 - Non-Current Liabilities", "4.1 - Long-Term Debt", b.longTermDebt),
      SheetRow(b, "4 - Non-Current Liabilities", "4.2 - Other Non-Current Liabilities", b.otherLongTermLiabilities),
      SheetRow(b, "5 - Equity", "5.1 - Stockholders Equity", b.totalEquity)]
  }

  /** The fifteen report rows of a sheet: the asset rows, then the liability
      and equity rows. */
  function BalanceRows(b: BalanceSheet): (rows: seq<StatementRow>)
    ensures |rows| == 15
    ensures forall i :: 0 <= i < 15 ==>
      rows[i].company == b.ticker && rows[i].statementDate == b.statementDate
      && rows[i].quarter == b.quarter && rows[i].year == b.year
    ensures rows[14].account == "5.1 - Stockholders Equity" && rows[14].amount == b.totalEquity
  {
    AssetRows(b) + ClaimRows(b)
  }

  /** The rows of a sheet that was derived successfully balance: the asset
      rows and the liability and equity rows have the same total. */
  lemma DerivedRowsBalance(ticker: string, offset: int, rec: RawRecord)
    requires DeriveBalanceSheet(ticker, offset, rec).Success?
    ensures var b := DeriveBalanceSheet(ticker, offset, rec).value;
      var assets := AssetRows(b);
      var claims := ClaimRows(b);
      assets[0].amount + assets[1].amount + assets[2].amount + assets[3].amount + assets[4].amount
      + assets[5].amount + assets[6].amount + assets[7].amount + assets[8].amount
      == claims[0].amount + claims[1].amount + claims[2].amount + claims[3].amount + claims[4].amount
      + claims[5].amount
  {
  }
}
