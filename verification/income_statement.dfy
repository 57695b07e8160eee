/** The income-statement deriver: one quarterly raw record becomes an
    income statement whose cost lines carry a negative sign and whose
    residual lines close each subtotal. Also the quarterly-to-annual
    combine, the in-place addition of another statement's values, and the
    statement's report rows. */
module IncomeStatements {
  import opened Wrappers
  import opened Records
  import opened Periods
  import Item = LineItems

  datatype IncomeStatement = IncomeStatement(
    ticker: string,
    statementDate: Date,
    quarter: int,
    year: int,
    grossProfit: real,
    cogs: real,
    revenue: real,
    operatingIncome: real,
    sellingGeneralAndAdmin: real,
    researchAndDevelopment: real,
    operatingExpenses: real,
    pretaxIncome: real,
    netInterestExp: real,
    netOtherExp: real,
    netIncome: real,
    taxes: real,
    taxRate: real,
    nopat: real,
    interestExp: real,
    ebit: real,
    depAndAmort: real,
    ebitda: real,
    psDiv: real,
    epsDiluted: real)

  /** The numeric attributes of a statement, by name. */
  datatype Field =
    | GrossProfit | Cogs | Revenue | OperatingIncome | SellingGeneralAndAdmin
    | ResearchAndDevelopment | OperatingExpenses | PretaxIncome | NetInterestExp
    | NetOtherExp | NetIncome | Taxes | TaxRate | Nopat | InterestExp | Ebit
    | DepAndAmort | Ebitda | PsDiv | EpsDiluted

  function Attr(s: IncomeStatement, f: Field): real {
    match f
    case GrossProfit => s.grossProfit
    case Cogs => s.cogs
    case Revenue => s.revenue
    case OperatingIncome => s.operatingIncome
    case SellingGeneralAndAdmin => s.sellingGeneralAndAdmin
    case ResearchAndDevelopment => s.researchAndDevelopment
    case OperatingExpenses => s.operatingExpenses
    case PretaxIncome => s.pretaxIncome
    case NetInterestExp => s.netInterestExp
    case NetOtherExp => s.netOtherExp
    case NetIncome => s.netIncome
    case Taxes => s.taxes
    case TaxRate => s.taxRate
    case Nopat => s.nopat
    case InterestExp => s.interestExp
    case Ebit => s.ebit
    case DepAndAmort => s.depAndAmort
    case Ebitda => s.ebitda
    case PsDiv => s.psDiv
    case EpsDiluted => s.epsDiluted
  }

  /** The attribute name the program uses for each field. */
  function AttributeName(f: Field): string {
    match f
    case GrossProfit => "gross_profit"
    case Cogs => "cogs"
    case Revenue => "revenue"
    case OperatingIncome => "operating_income"
    case SellingGeneralAndAdmin => "selling_general_and_admin"
    case ResearchAndDevelopment => "research_and_development"
    case OperatingExpenses => "operating_expenses"
    case PretaxIncome => "pretax_income"
    case NetInterestExp => "net_interest_exp"
    case NetOtherExp => "net_other_exp"
    case NetIncome => "net_income"
    case Taxes => "taxes"
    case TaxRate => "tax_rate"
    case Nopat => "nopat"
    case InterestExp => "interest_exp"
    case Ebit => "ebit"
    case DepAndAmort => "dep_and_amort"
    case Ebitda => "ebitda"
    case PsDiv => "ps_div"
    case EpsDiluted => "eps_diluted"
  }

  /** The field an attribute name denotes, if it denotes one. */
  function AttributeOf(name: string): (r: Option<Field>)
    ensures r.Some? ==> AttributeName(r.value) == name
    ensures forall f :: AttributeName(f) == name ==> r == Some(f)
  {
    if name == "gross_profit" then Some(GrossProfit)
    else if name == "cogs" then Some(Cogs)
    else if name == "revenue" then Some(Revenue)
    else if name == "operating_income" then Some(OperatingIncome)
    else if name == "selling_general_and_admin" then Some(SellingGeneralAndAdmin)
    else if name == "research_and_development" then Some(ResearchAndDevelopment)
    else if name == "operating_expenses" then Some(OperatingExpenses)
    else if name == "pretax_income" then Some(PretaxIncome)
    else if name == "net_interest_exp" then Some(NetInterestExp)
    else if name == "net_other_exp" then Some(NetOtherExp)
    else if name == "net_income" then Some(NetIncome)
    else if name == "taxes" then Some(Taxes)
    else if name == "tax_rate" then Some(TaxRate)
    else if name == "nopat" then Some(Nopat)
    else if name == "interest_exp" then Some(InterestExp)
    else if name == "ebit" then Some(Ebit)
    else if name == "dep_and_amort" then Some(DepAndAmort)
    else if name == "ebitda" then Some(Ebitda)
    else if name == "ps_div" then Some(PsDiv)
    else if name == "eps_diluted" then Some(EpsDiluted)
    else None
  }

  /** Raw keys the deriver reads unconditionally, in the order it reads them:
      the operating lines, then the lines below operating income. */
  const OperatingFields: seq<Item.LineItem> := [
    Item.GrossProfit, Item.CostOfRevenue, Item.OperatingIncome, Item.SellingGeneralAndAdministration,
    Item.ResearchAndDevelopment, Item.PretaxIncome]
  const NonOperatingFields: seq<Item.LineItem> := [
    Item.NetInterestIncome, Item.NetIncome, Item.InterestExpense, Item.EBIT,
    Item.ReconciledDepreciation, Item.DilutedEPS]
  const IncomeFields: seq<Item.LineItem> := OperatingFields + NonOperatingFields

  predicate HasOperatingItems(v: map<Item.LineItem, real>) {
    && Item.GrossProfit in v && Item.CostOfRevenue in v && Item.OperatingIncome in v
    && Item.SellingGeneralAndAdministration in v && Item.ResearchAndDevelopment in v
    && Item.PretaxIncome in v
  }

  predicate HasNonOperatingItems(v: map<Item.LineItem, real>) {
    && Item.NetInterestIncome in v && Item.NetIncome in v && Item.InterestExpense in v
    && Item.EBIT in v && Item.ReconciledDepreciation in v && Item.DilutedEPS in v
  }

  /** The record has every item the deriver reads unconditionally. */
  predicate HasIncomeItems(v: map<Item.LineItem, real>) {
    HasOperatingItems(v) && HasNonOperatingItems(v)
  }

  lemma OperatingItemsPresent(v: map<Item.LineItem, real>)
    ensures HasOperatingItems(v) <==> FirstMissing(v, OperatingFields).None?
  {
    FirstMissingNone(v, OperatingFields);
  }

  lemma NonOperatingItemsPresent(v: map<Item.LineItem, real>)
    ensures HasNonOperatingItems(v) <==> FirstMissing(v, NonOperatingFields).None?
  {
    FirstMissingNone(v, NonOperatingFields);
  }

  /** The required items are present exactly when none of them is missing. */
  lemma IncomeItemsPresent(v: map<Item.LineItem, real>)
    ensures HasIncomeItems(v) <==> FirstMissing(v, IncomeFields).None?
  {
    FirstMissingConcat(v, OperatingFields, NonOperatingFields);
    OperatingItemsPresent(v);
    NonOperatingItemsPresent(v);
  }

  /** The optional preferred-dividend line, zero when the record lacks it. */
  function PreferredDividends(values: map<Item.LineItem, real>): real {
    if Item.PreferredStockDividends in values then values[Item.PreferredStockDividends] else 0.0
  }

  /** The derived lines of a statement close every subtotal they stand for. */
  predicate Articulates(s: IncomeStatement) {
    && s.revenue == s.grossProfit - s.cogs
    && s.operatingExpenses + s.sellingGeneralAndAdmin + s.researchAndDevelopment
       == s.operatingIncome - s.grossProfit
    && s.netInterestExp + s.netOtherExp == s.pretaxIncome - s.operatingIncome
    && s.taxes == s.pretaxIncome - s.netIncome
    && s.ebitda == s.ebit + s.depAndAmort
  }

  /** The tax rate is the share of pretax income paid as tax (zero without
      pretax income), and NOPAT is operating income net of that rate. */
  predicate TaxedAtRate(s: IncomeStatement) {
    && (s.pretaxIncome == 0.0 ==> s.taxRate == 0.0)
    && (s.pretaxIncome != 0.0 ==> s.taxRate * s.pretaxIncome == s.taxes)
    && s.nopat == s.operatingIncome - s.operatingIncome * s.taxRate
  }

  /** The statement's reported lines are the record's values, with the three
      cost lines (cost of revenue, SG&A, R&D) turned into negative amounts. */
  predicate ReadsFrom(s: IncomeStatement, values: map<Item.LineItem, real>)
    requires HasIncomeItems(values)
  {
    && s.grossProfit == values[Item.GrossProfit]
    && s.cogs == -values[Item.CostOfRevenue]
    && s.operatingIncome == values[Item.OperatingIncome]
    && s.sellingGeneralAndAdmin == -values[Item.SellingGeneralAndAdministration]
    && s.researchAndDevelopment == -values[Item.ResearchAndDevelopment]
    && s.pretaxIncome == values[Item.PretaxIncome]
    && s.netInterestExp == values[Item.NetInterestIncome]
    && s.netIncome == values[Item.NetIncome]
    && s.interestExp == values[Item.InterestExpense]
    && s.ebit == values[Item.EBIT]
    && s.depAndAmort == values[Item.ReconciledDepreciation]
    && s.psDiv == PreferredDividends(values)
    && s.epsDiluted == values[Item.DilutedEPS]
  }

  /** The share of pretax income paid as tax, zero when there is no pretax income. */
  function RateOfTax(pretaxIncome: real, taxes: real): (rate: real)
    ensures pretaxIncome == 0.0 ==> rate == 0.0
    ensures pretaxIncome != 0.0 ==> rate * pretaxIncome == taxes
  {
    if pretaxIncome == 0.0 then 0.0 else taxes / pretaxIncome
  }

  /** Operating income after tax at the given rate. */
  function AfterTax(operatingIncome: real, rate: real): (nopat: real)
    ensures nopat == operatingIncome - operatingIncome * rate
  {
    operatingIncome * (1.0 - rate)
  }

  /** The statement built from a record that has every required item. */
  function Derive(ticker: string, date: Date, period: FiscalPeriod, v: map<Item.LineItem, real>): (s: IncomeStatement)
    requires HasIncomeItems(v)
    ensures s.ticker == ticker && s.statementDate == date
    ensures s.quarter == period.quarter && s.year == period.year
    ensures Articulates(s) && TaxedAtRate(s) && ReadsFrom(s, v)
  {
    var grossProfit := v[Item.GrossProfit];
    var cogs := v[Item.CostOfRevenue] * -1.0;
    var operatingIncome := v[Item.OperatingIncome];
    var sga := v[Item.SellingGeneralAndAdministration] * -1.0;
    var rnd := v[Item.ResearchAndDevelopment] * -1.0;
    var totalOperatingExpenses := operatingIncome - grossProfit;
    var pretaxIncome := v[Item.PretaxIncome];
    var totalOtherExp := pretaxIncome - operatingIncome;
    var netInterestExp := v[Item.NetInterestIncome];
    var netIncome := v[Item.NetIncome];
    var taxes := pretaxIncome - netIncome;
    var taxRate := RateOfTax(pretaxIncome, taxes);
    var ebit := v[Item.EBIT];
    var depAndAmort := v[Item.ReconciledDepreciation];
    IncomeStatement(
      ticker, date, period.quarter, period.year,
      grossProfit, cogs, grossProfit - cogs,
      operatingIncome, sga, rnd, totalOperatingExpenses - sga - rnd,
      pretaxIncome, netInterestExp, totalOtherExp - netInterestExp,
      netIncome, taxes, taxRate, AfterTax(operatingIncome, taxRate),
      v[Item.InterestExpense], ebit, depAndAmort, ebit + depAndAmort,
      PreferredDividends(v), v[Item.DilutedEPS])
  }

  /** Builds an income statement from one raw record. */
  function DeriveIncomeStatement(ticker: string, offset: int, rec: RawRecord): (r: Result<IncomeStatement, StatementError>)
    ensures r.Success? <==>
      rec.statementDate.Some? && -4 <= offset <= 1 && HasIncomeItems(rec.values)
    ensures rec.statementDate.None? ==> r == Failure(MissingDate)
    ensures rec.statementDate.Some? && !(-4 <= offset <= 1) ==> r == Failure(IndexOutOfRange)
    ensures rec.statementDate.Some? && -4 <= offset <= 1 && FirstMissing(rec.values, IncomeFields).Some? ==>
      r == Failure(MissingField(FirstMissing(rec.values, IncomeFields).value))
    ensures r.Success? ==>
      && r.value.ticker == ticker
      && r.value.statementDate == rec.statementDate.value
      && AdjustedQuarterAndYear(r.value.statementDate, offset) == Success(FiscalPeriod(r.value.quarter, r.value.year))
      && Articulates(r.value)
      && TaxedAtRate(r.value)
      && ReadsFrom(r.value, rec.values)
      && r.value.revenue == rec.values[Item.GrossProfit] + rec.values[Item.CostOfRevenue]
  {
    if rec.statementDate.None? then Failure(MissingDate)
    else
      var date := rec.statementDate.value;
      var period :- AdjustedQuarterAndYear(date, offset);
      IncomeItemsPresent(rec.values);
      match FirstMissing(rec.values, IncomeFields)
      case Some(k) => Failure(MissingField(k))
      case None =>
        Success(Derive(ticker, date, period, rec.values))
  }

  /** The sum of one field over a list of statements. */
  function Total(ss: seq<IncomeStatement>, f: Field): real {
    if |ss| == 0 then 0.0 else Attr(ss[0], f) + Total(ss[1..], f)
  }

  function Dates(ss: seq<IncomeStatement>): (ds: seq<Date>)
    ensures |ds| == |ss| && forall i :: 0 <= i < |ss| ==> ds[i] == ss[i].statementDate
  {
    seq(|ss|, i requires 0 <= i < |ss| => ss[i].statementDate)
  }

  /** The flows of an annual record: every field summed over the quarters,
      with the three cost lines given back their raw sign so that deriving
      again restores it. */
  function CombinedValues(ss: seq<IncomeStatement>): (v: map<Item.LineItem, real>)
    ensures HasIncomeItems(v) && Item.PreferredStockDividends in v
  {
    map[
      Item.GrossProfit := Total(ss, GrossProfit),
      Item.CostOfRevenue := Total(ss, Cogs) * -1.0,
      Item.OperatingIncome := Total(ss, OperatingIncome),
      Item.SellingGeneralAndAdministration := Total(ss, SellingGeneralAndAdmin) * -1.0,
      Item.ResearchAndDevelopment := Total(ss, ResearchAndDevelopment) * -1.0,
      Item.PretaxIncome := Total(ss, PretaxIncome),
      Item.NetInterestIncome := Total(ss, NetInterestExp),
      Item.NetIncome := Total(ss, NetIncome),
      Item.InterestExpense := Total(ss, InterestExp),
      Item.EBIT := Total(ss, Ebit),
      Item.ReconciledDepreciation := Total(ss, DepAndAmort),
      Item.PreferredStockDividends := Total(ss, PsDiv),
      Item.DilutedEPS := Total(ss, EpsDiluted)]
  }

  /** Combines quarterly statements into the raw record of one annual
      statement, dated at the latest quarter; an empty list has no latest
      date and is refused. */
  function CombineIncomeStatements(ss: seq<IncomeStatement>): (r: Result<RawRecord, StatementError>)
    ensures r.Success? <==> |ss| > 0
    ensures r.Failure? ==> r.error == EmptySequence
    ensures r.Success? ==>
      && r.value.statementDate.Some?
      && r.value.statementDate.value in Dates(ss)
      && (forall i :: 0 <= i < |ss| ==> NotAfter(ss[i].statementDate, r.value.statementDate.value))
    ensures r.Success? ==> r.value.values == CombinedValues(ss)
  {
    if |ss| == 0 then Failure(EmptySequence)
    else Success(RawRecord(Some(Latest(Dates(ss))), CombinedValues(ss)))
  }

  /** The combined record carries the total of every flow field, with the
      three cost lines negated back to their raw sign. */
  lemma CombinedGrossProfitTotals(ss: seq<IncomeStatement>)
    ensures var v := CombinedValues(ss);
      && v[Item.GrossProfit] == Total(ss, GrossProfit)
      && v[Item.CostOfRevenue] == -Total(ss, Cogs)
      && v[Item.OperatingIncome] == Total(ss, OperatingIncome)
  {
  }

  lemma CombinedOperatingCostTotals(ss: seq<IncomeStatement>)
    ensures var v := CombinedValues(ss);
      && v[Item.SellingGeneralAndAdministration] == -Total(ss, SellingGeneralAndAdmin)
      && v[Item.ResearchAndDevelopment] == -Total(ss, ResearchAndDevelopment)
  {
  }

  lemma CombinedOtherTotals(ss: seq<IncomeStatement>)
    ensures var v := CombinedValues(ss);
      && v[Item.PretaxIncome] == Total(ss, PretaxIncome)
      && v[Item.NetInterestIncome] == Total(ss, NetInterestExp)
      && v[Item.NetIncome] == Total(ss, NetIncome)
      && v[Item.InterestExpense] == Total(ss, InterestExp)
  {
  }

  lemma CombinedPerShareTotals(ss: seq<IncomeStatement>)
    ensures var v := CombinedValues(ss);
      && v[Item.EBIT] == Total(ss, Ebit)
      && v[Item.ReconciledDepreciation] == Total(ss, DepAndAmort)
      && v[Item.PreferredStockDividends] == Total(ss, PsDiv)
      && v[Item.DilutedEPS] == Total(ss, EpsDiluted)
  {
  }

  /** Every statement of `ss` articulates, stated recursively so that it
      unfolds one quarter at a time. */
  predicate AllArticulate(ss: seq<IncomeStatement>) {
    |ss| == 0 || (Articulates(ss[0]) && AllArticulate(ss[1..]))
  }

  lemma {:induction false} AllArticulateMeans(ss: seq<IncomeStatement>)
    ensures AllArticulate(ss) <==> forall i :: 0 <= i < |ss| ==> Articulates(ss[i])
  {
    if |ss| > 0 {
      AllArticulateMeans(ss[1..]);
      assert forall i :: 1 <= i < |ss| ==> ss[i] == ss[1..][i - 1];
    }
  }

  /** The totals of articulated statements articulate in the same way. */
  lemma {:induction false} ArticulatedTotals(ss: seq<IncomeStatement>)
    requires AllArticulate(ss)
    ensures Total(ss, Revenue) == Total(ss, GrossProfit) - Total(ss, Cogs)
    ensures Total(ss, Taxes) == Total(ss, PretaxIncome) - Total(ss, NetIncome)
    ensures Total(ss, Ebitda) == Total(ss, Ebit) + Total(ss, DepAndAmort)
  {
    if |ss| > 0 {
      ArticulatedTotals(ss[1..]);
    }
  }

  /** Every line `a` reads from a record is the total of that line over `ss`. */
  predicate ReadsTotals(ss: seq<IncomeStatement>, a: IncomeStatement) {
    && a.grossProfit == Total(ss, GrossProfit)
    && a.cogs == Total(ss, Cogs)
    && a.sellingGeneralAndAdmin == Total(ss, SellingGeneralAndAdmin)
    && a.researchAndDevelopment == Total(ss, ResearchAndDevelopment)
    && a.pretaxIncome == Total(ss, PretaxIncome)
    && a.netIncome == Total(ss, NetIncome)
    && a.ebit == Total(ss, Ebit)
    && a.depAndAmort == Total(ss, DepAndAmort)
    && a.operatingIncome == Total(ss, OperatingIncome)
    && a.netInterestExp == Total(ss, NetInterestExp)
    && a.interestExp == Total(ss, InterestExp)
    && a.psDiv == Total(ss, PsDiv)
    && a.epsDiluted == Total(ss, EpsDiluted)
  }

  /** Deriving a statement from the combined record of any non-empty run of
      quarters succeeds, and every line it reads is the quarters' total. */
  lemma AnnualisedReads(ticker: string, offset: int, ss: seq<IncomeStatement>)
    requires |ss| > 0 && -4 <= offset <= 1
    ensures DeriveIncomeStatement(ticker, offset, CombineIncomeStatements(ss).value).Success?
    ensures var a := DeriveIncomeStatement(ticker, offset, CombineIncomeStatements(ss).value).value;
      Articulates(a) && ReadsTotals(ss, a)
  {
    var rec := CombineIncomeStatements(ss).value;
    assert rec.values == CombinedValues(ss);
    CombinedGrossProfitTotals(ss);
    CombinedOperatingCostTotals(ss);
    CombinedOtherTotals(ss);
    CombinedPerShareTotals(ss);
    assert ReadsFrom(DeriveIncomeStatement(ticker, offset, rec).value, rec.values);
  }

  /** Deriving a statement from the combined record of articulated quarters
      gives an annual statement whose cost lines, revenue, taxes and EBITDA
      are the sums of the quarters' own values. */
  lemma AnnualisedStatement(ticker: string, offset: int, ss: seq<IncomeStatement>)
    requires |ss| > 0 && -4 <= offset <= 1
    requires AllArticulate(ss)
    ensures DeriveIncomeStatement(ticker, offset, CombineIncomeStatements(ss).value).Success?
    ensures var a := DeriveIncomeStatement(ticker, offset, CombineIncomeStatements(ss).value).value;
      && a.cogs == Total(ss, Cogs)
      && a.sellingGeneralAndAdmin == Total(ss, SellingGeneralAndAdmin)
      && a.researchAndDevelopment == Total(ss, ResearchAndDevelopment)
      && a.revenue == Total(ss, Revenue)
      && a.taxes == Total(ss, Taxes)
      && a.ebitda == Total(ss, Ebitda)
  {
    var a := DeriveIncomeStatement(ticker, offset, CombineIncomeStatements(ss).value).value;
    AnnualisedReads(ticker, offset, ss);
    ArticulatedTotals(ss);
    assert a.grossProfit == Total(ss, GrossProfit) && a.cogs == Total(ss, Cogs);
    assert a.pretaxIncome == Total(ss, PretaxIncome) && a.netIncome == Total(ss, NetIncome);
    assert a.ebit == Total(ss, Ebit) && a.depAndAmort == Total(ss, DepAndAmort);
  }

  /** Attribute names `add_other_income_statement` leaves alone. */
  const IgnoredAttributes: seq<string> := ["ticker", "statement_date", "quarter", "year"]

  /** The amount supplied for a field's attribute name, zero when none is. */
  function Supplied(kw: map<string, real>, f: Field): real {
    if AttributeName(f) in kw then kw[AttributeName(f)] else 0.0
  }

  predicate Addable(name: string) {
    name in IgnoredAttributes || AttributeOf(name).Some?
  }

  /** `s` with every supplied amount added onto its attribute. */
  function AddAmounts(s: IncomeStatement, kw: map<string, real>): IncomeStatement {
    IncomeStatement(
      s.ticker, s.statementDate, s.quarter, s.year,
      s.grossProfit + Supplied(kw, GrossProfit),
      s.cogs + Supplied(kw, Cogs),
      s.revenue + Supplied(kw, Revenue),
      s.operatingIncome + Supplied(kw, OperatingIncome),
      s.sellingGeneralAndAdmin + Supplied(kw, SellingGeneralAndAdmin),
      s.researchAndDevelopment + Supplied(kw, ResearchAndDevelopment),
      s.operatingExpenses + Supplied(kw, OperatingExpenses),
      s.pretaxIncome + Supplied(kw, PretaxIncome),
      s.netInterestExp + Supplied(kw, NetInterestExp),
      s.netOtherExp + Supplied(kw, NetOtherExp),
      s.netIncome + Supplied(kw, NetIncome),
      s.taxes + Supplied(kw, Taxes),
      s.taxRate + Supplied(kw, TaxRate),
      s.nopat + Supplied(kw, Nopat),
      s.interestExp + Supplied(kw, InterestExp),
      s.ebit + Supplied(kw, Ebit),
      s.depAndAmort + Supplied(kw, DepAndAmort),
      s.ebitda + Supplied(kw, Ebitda),
      s.psDiv + Supplied(kw, PsDiv),
      s.epsDiluted + Supplied(kw, EpsDiluted))
  }

  lemma AddAmountsField(s: IncomeStatement, kw: map<string, real>, f: Field)
    ensures Attr(AddAmounts(s, kw), f) == Attr(s, f) + Supplied(kw, f)
  {
    match f
    case GrossProfit =>
    case Cogs =>
    case Revenue =>
    case OperatingIncome =>
    case SellingGeneralAndAdmin =>
    case ResearchAndDevelopment =>
    case OperatingExpenses =>
    case PretaxIncome =>
    case NetInterestExp =>
    case NetOtherExp =>
    case NetIncome =>
    case Taxes =>
    case TaxRate =>
    case Nopat =>
    case InterestExp =>
    case Ebit =>
    case DepAndAmort =>
    case Ebitda =>
    case PsDiv =>
    case EpsDiluted =>
  }

  lemma AddAmountsFields(s: IncomeStatement, kw: map<string, real>)
    ensures forall f :: Attr(AddAmounts(s, kw), f) == Attr(s, f) + Supplied(kw, f)
  {
    forall f ensures Attr(AddAmounts(s, kw), f) == Attr(s, f) + Supplied(kw, f) {
      AddAmountsField(s, kw, f);
    }
  }

  /** Adds the supplied values onto the same-named attributes of `s`. A name
      that is neither ignored nor an amount attribute aborts the addition. */
  function AddOtherIncomeStatement(s: IncomeStatement, kw: map<string, real>): (r: Result<IncomeStatement, StatementError>)
    ensures r.Success? <==> forall k :: k in kw ==> Addable(k)
    ensures r.Failure? ==> r.error == UnknownAttribute
    ensures r.Success? ==>
      && r.value.ticker == s.ticker
      && r.value.statementDate == s.statementDate
      && r.value.quarter == s.quarter
      && r.value.year == s.year
    ensures r.Success? ==> forall f :: Attr(r.value, f) == Attr(s, f) + Supplied(kw, f)
  {
    if exists k :: k in kw && !Addable(k) then Failure(UnknownAttribute)
    else
      AddAmountsFields(s, kw);
      Success(AddAmounts(s, kw))
  }

  function Row(s: IncomeStatement, classification: string, account: string, amount: real): StatementRow {
    StatementRow(s.ticker, s.statementDate, s.quarter, s.year, classification, account, amount)
  }

  /** The eight report rows of a statement. */
  function IncomeRows(s: IncomeStatement): (rows: seq<StatementRow>)
    ensures |rows| == 8
    ensures forall i :: 0 <= i < 8 ==>
      rows[i].company == s.ticker && rows[i].statementDate == s.statementDate
      && rows[i].quarter == s.quarter && rows[i].year == s.year
    ensures Articulates(s) ==>
      rows[0].amount + rows[1].amount + rows[2].amount + rows[3].amount
      + rows[4].amount + rows[5].amount + rows[6].amount == s.pretaxIncome
    ensures Articulates(s) ==> s.pretaxIncome - rows[7].amount == s.netIncome
    ensures rows[0].amount == s.revenue && rows[7].amount == s.taxes
  {
    [ Row(s, "1 - Gross Profit", "1.1 - Revenue", s.revenue),
      Row(s, "1 - Gross Profit", "1.2 - COGS", s.cogs),
      Row(s, "2 - Operating Expenses", "2.1 - SG&A", s.sellingGeneralAndAdmin),
      Row(s, "2 - Operating Expenses", "2.2 - R&D", s.researchAndDevelopment),
      Row(s, "2 - Operating Expenses", "2.3 - Operating Expenses", s.operatingExpenses),
      Row(s, "3 - Other Income/Expenses", "3.1 - Net Interest Expense", s.netInterestExp),
      Row(s, "3 - Other Income/Expenses", "3.2 - Net Other Expenses", s.netOtherExp),
      Row(s, "4 - Taxes", "4.1 - Taxes", s.taxes)]
  }
}
