/** The ratio engine: an annual income statement, its year-end balance sheet,
    the prior year-end balance sheet and a market close price become about
    fifty ratios. A ratio whose denominator is guarded falls back to zero; an
    unguarded zero denominator aborts the whole construction.

    Every ratio is specified by the product it must satisfy
    (`margin * revenue == grossProfit`) rather than by the quotient that
    computes it, so the contracts say what each number means. */
module ConsolidatedStatements {
  import opened Wrappers
  import opened Records
  import IS = IncomeStatements
  import BS = BalanceSheets
  import N = RatioNames

  /** Days in the year used by the days-outstanding ratios. */
  const DaysPerYear: real := 365.0

  datatype Profitability = Profitability(
    grossMargin: real, operatingMargin: real, ebitdaMargin: real, netProfitMargin: real)

  datatype Liquidity = Liquidity(currentRatio: real, quickRatio: real, cashRatio: real)

  datatype WorkingCapital = WorkingCapital(
    currentWorkingCapital: real, priorWorkingCapital: real,
    arDays: real, apDays: real, inventDays: real, cashConversionCycle: real,
    arTurnover: real, inventTurnover: real, apTurnover: real, workingCapTurnover: real)

  datatype Coverage = Coverage(ebitInterestCoverage: real, ebitdaInterestCoverage: real)

  datatype Leverage = Leverage(
    debtToCapital: real, debtToEquity: real, netDebt: real, marketCapitalization: real,
    enterpriseValue: real, debtToEnterpriseValue: real,
    equityMultiplierBook: real, equityMultiplierMarket: real)

  datatype Industry = Industry(rndToSales: real, capx: real, capxToSales: real)

  datatype Valuation = Valuation(
    marketToBook: real, marketToSales: real, evToEbitda: real, evToSales: real,
    epsDiluted: real, epsBasic: real, priceToEarnings: real)

  datatype Operating = Operating(
    assetTurnover: real, returnOnAssets: real, returnOnEquity: real, returnOnInvestedCapital: real)

  /** The five Altman components and the score weighted from them. */
  datatype Altman = Altman(
    workingCapitalToAssets: real, retainedEarningsToAssets: real, ebitToAssets: real,
    marketValueToLiabilities: real, salesToAssets: real, zScore: real)

  datatype ConsolidatedStatement = ConsolidatedStatement(
    ticker: string,
    year: int,
    income: IS.IncomeStatement,
    balance: BS.BalanceSheet,
    prior: BS.BalanceSheet,
    marketClose: real,
    profitability: Profitability,
    liquidity: Liquidity,
    workingCapital: WorkingCapital,
    coverage: Coverage,
    leverage: Leverage,
    industry: Industry,
    valuation: Valuation,
    operating: Operating,
    altman: Altman)

  // ---------------------------------------------------------------------
  // Profitability: guarded on revenue.

  predicate ProfitabilityHolds(p: Profitability, s: IS.IncomeStatement) {
    && (s.revenue == 0.0 ==> p == Profitability(0.0, 0.0, 0.0, 0.0))
    && (s.revenue != 0.0 ==>
          && p.grossMargin * s.revenue == s.grossProfit
          && p.operatingMargin * s.revenue == s.operatingIncome
          && p.ebitdaMargin * s.revenue == s.ebitda
          && p.netProfitMargin * s.revenue == s.netIncome)
  }

  function ProfitabilityOf(s: IS.IncomeStatement): (p: Profitability)
    ensures ProfitabilityHolds(p, s)
  {
    if s.revenue == 0.0 then Profitability(0.0, 0.0, 0.0, 0.0)
    else Profitability(
      s.grossProfit / s.revenue, s.operatingIncome / s.revenue,
      s.ebitda / s.revenue, s.netIncome / s.revenue)
  }

  // ---------------------------------------------------------------------
  // Liquidity: unguarded division by current liabilities.

  predicate LiquidityHolds(l: Liquidity, b: BS.BalanceSheet) {
    && l.currentRatio * b.currentLiabilities == b.currentAssets
    && l.quickRatio * b.currentLiabilities
       == b.cashAndEquivalents + b.shortTermInvestments + b.accountsReceivable
    && l.cashRatio * b.currentLiabilities == b.cashAndEquivalents
  }

  function LiquidityOf(b: BS.BalanceSheet): (l: Liquidity)
    requires b.currentLiabilities != 0.0
    ensures LiquidityHolds(l, b)
  {
    Liquidity(
      b.currentAssets / b.currentLiabilities,
      (b.cashAndEquivalents + b.shortTermInvestments + b.accountsReceivable) / b.currentLiabilities,
      b.cashAndEquivalents / b.currentLiabilities)
  }

  // ---------------------------------------------------------------------
  // Working capital: days ratios guarded on revenue and cost of revenue,
  // turnovers over two-period averages unguarded.

  function WorkingCapitalAt(b: BS.BalanceSheet): real {
    b.currentAssets - b.currentLiabilities
  }

  /** The two-period averages the turnovers divide by are all non-zero. */
  predicate TurnoversDefined(b: BS.BalanceSheet, pb: BS.BalanceSheet) {
    && b.accountsReceivable + pb.accountsReceivable != 0.0
    && b.inventory + pb.inventory != 0.0
    && b.accountsPayable + pb.accountsPayable != 0.0
    && WorkingCapitalAt(b) + WorkingCapitalAt(pb) != 0.0
  }

  predicate WorkingCapitalHolds(w: WorkingCapital, s: IS.IncomeStatement, b: BS.BalanceSheet, pb: BS.BalanceSheet) {
    && w.currentWorkingCapital == b.currentAssets - b.currentLiabilities
    && w.priorWorkingCapital == pb.currentAssets - pb.currentLiabilities
    && (s.revenue == 0.0 ==> w.arDays == 0.0)
    && (s.revenue != 0.0 ==> w.arDays * s.revenue == DaysPerYear * b.accountsReceivable)
    && (s.cogs == 0.0 ==> w.apDays == 0.0 && w.inventDays == 0.0)
    && (s.cogs != 0.0 ==>
          && w.apDays * s.cogs == -DaysPerYear * b.accountsPayable
          && w.inventDays * s.cogs == -DaysPerYear * b.inventory)
    && w.cashConversionCycle == w.inventDays + w.arDays - w.apDays
    && w.arTurnover * (b.accountsReceivable + pb.accountsReceivable) == 2.0 * s.revenue
    && w.inventTurnover * (b.inventory + pb.inventory) == -2.0 * s.cogs
    && w.apTurnover * (b.accountsPayable + pb.accountsPayable) == -2.0 * s.cogs
    && w.workingCapTurnover * (w.currentWorkingCapital + w.priorWorkingCapital) == 2.0 * s.revenue
  }

  /** Sales outstanding, in days, zero without revenue. */
  function ReceivableDays(receivables: real, revenue: real): (d: real)
    ensures revenue == 0.0 ==> d == 0.0
    ensures revenue != 0.0 ==> d * revenue == DaysPerYear * receivables
  {
    if revenue == 0.0 then 0.0 else receivables / (revenue / DaysPerYear)
  }

  /** Payables or inventory outstanding, in days of (negative) cost of
      revenue, zero without cost of revenue. */
  function CostDays(amount: real, cogs: real): (d: real)
    ensures cogs == 0.0 ==> d == 0.0
    ensures cogs != 0.0 ==> d * cogs == -DaysPerYear * amount
  {
    if cogs == 0.0 then 0.0 else amount / (cogs / DaysPerYear) * -1.0
  }

  /** A flow over the average of two balances. */
  function Turnover(flow: real, current: real, prior: real): (t: real)
    requires current + prior != 0.0
    ensures t * (current + prior) == 2.0 * flow
  {
    flow / ((current + prior) / 2.0)
  }

  function WorkingCapitalOf(s: IS.IncomeStatement, b: BS.BalanceSheet, pb: BS.BalanceSheet): (w: WorkingCapital)
    requires TurnoversDefined(b, pb)
    ensures WorkingCapitalHolds(w, s, b, pb)
  {
    var arDays := ReceivableDays(b.accountsReceivable, s.revenue);
    var apDays := CostDays(b.accountsPayable, s.cogs);
    var inventDays := CostDays(b.inventory, s.cogs);
    WorkingCapital(
      WorkingCapitalAt(b), WorkingCapitalAt(pb),
      arDays, apDays, inventDays, inventDays + arDays - apDays,
      Turnover(s.revenue, b.accountsReceivable, pb.accountsReceivable),
      Turnover(s.cogs, b.inventory, pb.inventory) * -1.0,
      Turnover(s.cogs, b.accountsPayable, pb.accountsPayable) * -1.0,
      Turnover(s.revenue, WorkingCapitalAt(b), WorkingCapitalAt(pb)))
  }

  // ---------------------------------------------------------------------
  // Interest coverage: guarded on interest expense.

  predicate CoverageHolds(c: Coverage, s: IS.IncomeStatement) {
    && (s.interestExp == 0.0 ==> c == Coverage(0.0, 0.0))
    && (s.interestExp != 0.0 ==>
          && c.ebitInterestCoverage * s.interestExp == s.ebit
          && c.ebitdaInterestCoverage * s.interestExp == s.ebitda)
  }

  function CoverageOf(s: IS.IncomeStatement): (c: Coverage)
    ensures CoverageHolds(c, s)
  {
    if s.interestExp == 0.0 then Coverage(0.0, 0.0)
    else Coverage(s.ebit / s.interestExp, s.ebitda / s.interestExp)
  }

  // ---------------------------------------------------------------------
  // Leverage and enterprise value: unguarded.

  function MarketCap(b: BS.BalanceSheet, close: real): real {
    close * b.sharesOutstanding
  }

  function EnterpriseValue(b: BS.BalanceSheet, close: real): real {
    MarketCap(b, close) + b.totalLiabilities - b.cashAndEquivalents
  }

  predicate LeverageDefined(b: BS.BalanceSheet, close: real) {
    && b.totalDebt + b.totalEquity != 0.0
    && b.totalEquity != 0.0
    && EnterpriseValue(b, close) != 0.0
    && MarketCap(b, close) != 0.0
  }

  predicate LeverageHolds(l: Leverage, b: BS.BalanceSheet, close: real) {
    && l.marketCapitalization == close * b.sharesOutstanding
    && l.netDebt == b.totalLiabilities - b.cashAndEquivalents
    && l.enterpriseValue == l.marketCapitalization + l.netDebt
    && l.debtToCapital * (b.totalDebt + b.totalEquity) == b.totalDebt
    && l.debtToEquity * b.totalEquity == b.totalDebt
    && l.debtToEnterpriseValue * l.enterpriseValue == b.totalLiabilities
    && l.equityMultiplierBook * b.totalEquity == b.totalAssets
    && l.equityMultiplierMarket * l.marketCapitalization == l.enterpriseValue
  }

  function LeverageOf(b: BS.BalanceSheet, close: real): (l: Leverage)
    requires LeverageDefined(b, close)
    ensures LeverageHolds(l, b, close)
  {
    var marketCap := MarketCap(b, close);
    var ev := EnterpriseValue(b, close);
    Leverage(
      b.totalDebt / (b.totalDebt + b.totalEquity),
      b.totalDebt / b.totalEquity,
      b.totalLiabilities - b.cashAndEquivalents,
      marketCap, ev,
      b.totalLiabilities / ev,
      b.totalAssets / b.totalEquity,
      ev / marketCap)
  }

  // ---------------------------------------------------------------------
  // Industry-specific ratios: unguarded division by revenue.

  predicate IndustryHolds(i: Industry, s: IS.IncomeStatement, b: BS.BalanceSheet, pb: BS.BalanceSheet) {
    && i.capx == b.grossPpe - pb.grossPpe + s.depAndAmort
    && i.rndToSales * s.revenue == -s.researchAndDevelopment
    && i.capxToSales * s.revenue == i.capx
  }

  function IndustryOf(s: IS.IncomeStatement, b: BS.BalanceSheet, pb: BS.BalanceSheet): (i: Industry)
    requires s.revenue != 0.0
    ensures IndustryHolds(i, s, b, pb)
  {
    var capx := b.grossPpe - pb.grossPpe + s.depAndAmort;
    Industry(s.researchAndDevelopment / s.revenue * -1.0, capx, capx / s.revenue)
  }

  // ---------------------------------------------------------------------
  // Valuation: unguarded.

  /** Earnings available to common shareholders. */
  function CommonEarnings(s: IS.IncomeStatement): real {
    s.netIncome - s.psDiv
  }

  predicate ValuationDefined(s: IS.IncomeStatement, b: BS.BalanceSheet) {
    && b.totalEquity != 0.0
    && s.revenue != 0.0
    && s.ebitda != 0.0
    && b.sharesOutstanding != 0.0
    && CommonEarnings(s) != 0.0
  }

  predicate ValuationHolds(v: Valuation, s: IS.IncomeStatement, b: BS.BalanceSheet, close: real, l: Leverage) {
    && v.marketToBook * b.totalEquity == l.marketCapitalization
    && v.marketToSales * s.revenue == l.marketCapitalization
    && v.evToEbitda * s.ebitda == l.enterpriseValue
    && v.evToSales * s.revenue == l.enterpriseValue
    && v.epsDiluted == s.epsDiluted
    && v.epsBasic * b.sharesOutstanding == CommonEarnings(s)
    && v.priceToEarnings * v.epsBasic == close
  }

  /** Earnings per share, non-zero when the earnings are. */
  function BasicEps(s: IS.IncomeStatement, b: BS.BalanceSheet): (eps: real)
    requires b.sharesOutstanding != 0.0
    ensures eps * b.sharesOutstanding == CommonEarnings(s)
    ensures eps != 0.0 <==> CommonEarnings(s) != 0.0
  {
    CommonEarnings(s) / b.sharesOutstanding
  }

  function ValuationOf(s: IS.IncomeStatement, b: BS.BalanceSheet, close: real, l: Leverage): (v: Valuation)
    requires ValuationDefined(s, b)
    ensures ValuationHolds(v, s, b, close, l)
  {
    var epsBasic := BasicEps(s, b);
    Valuation(
      l.marketCapitalization / b.totalEquity,
      l.marketCapitalization / s.revenue,
      l.enterpriseValue / s.ebitda,
      l.enterpriseValue / s.revenue,
      s.epsDiluted, epsBasic, close / epsBasic)
  }

  // ---------------------------------------------------------------------
  // Operating ratios: unguarded.

  predicate OperatingDefined(b: BS.BalanceSheet, pb: BS.BalanceSheet) {
    && b.totalAssets + pb.totalAssets != 0.0
    && b.totalAssets != 0.0
    && b.totalEquity != 0.0
  }

  predicate OperatingHolds(o: Operating, s: IS.IncomeStatement, b: BS.BalanceSheet, pb: BS.BalanceSheet) {
    && o.assetTurnover * (b.totalAssets + pb.totalAssets) == 2.0 * s.revenue
    && o.returnOnAssets * b.totalAssets == s.netIncome
    && o.returnOnEquity * b.totalEquity == s.netIncome
    && o.returnOnInvestedCapital * b.totalAssets == s.nopat
  }

  function OperatingOf(s: IS.IncomeStatement, b: BS.BalanceSheet, pb: BS.BalanceSheet): (o: Operating)
    requires OperatingDefined(b, pb)
    ensures OperatingHolds(o, s, b, pb)
  {
    Operating(
      Turnover(s.revenue, b.totalAssets, pb.totalAssets),
      s.netIncome / b.totalAssets,
      s.netIncome / b.totalEquity,
      s.nopat / b.totalAssets)
  }

  // ---------------------------------------------------------------------
  // Altman Z-score: unguarded.

  predicate AltmanDefined(b: BS.BalanceSheet) {
    b.totalAssets != 0.0 && b.totalLiabilities != 0.0
  }

  /** The weighted sum 1.2A + 1.4B + 3.3C + 0.6D + 1.0E of the components. */
  function ZScore(a: real, b: real, c: real, d: real, e: real): real {
    1.2 * a + 1.4 * b + 3.3 * c + 0.6 * d + 1.0 * e
  }

  predicate AltmanHolds(z: Altman, s: IS.IncomeStatement, b: BS.BalanceSheet, workingCapital: real, marketCap: real) {
    && z.workingCapitalToAssets * b.totalAssets == workingCapital
    && z.retainedEarningsToAssets * b.totalAssets == b.retainedEarnings
    && z.ebitToAssets * b.totalAssets == s.ebit
    && z.marketValueToLiabilities * b.totalLiabilities == marketCap
    && z.salesToAssets * b.totalAssets == s.revenue
    && z.zScore == ZScore(z.workingCapitalToAssets, z.retainedEarningsToAssets, z.ebitToAssets,
                          z.marketValueToLiabilities, z.salesToAssets)
  }

  function AltmanOf(s: IS.IncomeStatement, b: BS.BalanceSheet, workingCapital: real, marketCap: real): (z: Altman)
    requires AltmanDefined(b)
    ensures AltmanHolds(z, s, b, workingCapital, marketCap)
  {
    var wc := workingCapital / b.totalAssets;
    var re := b.retainedEarnings / b.totalAssets;
    var ebit := s.ebit / b.totalAssets;
    var mv := marketCap / b.totalLiabilities;
    var sales := s.revenue / b.totalAssets;
    Altman(wc, re, ebit, mv, sales, ZScore(wc, re, ebit, mv, sales))
  }

  // ---------------------------------------------------------------------
  // The whole construction.

  /** The denominators divided by before the market close is looked up. */
  predicate EarlyDefined(b: BS.BalanceSheet, pb: BS.BalanceSheet) {
    b.currentLiabilities != 0.0 && TurnoversDefined(b, pb)
  }

  /** The denominators divided by after the market close is looked up. */
  predicate LateDefined(s: IS.IncomeStatement, b: BS.BalanceSheet, pb: BS.BalanceSheet, close: real) {
    && LeverageDefined(b, close)
    && ValuationDefined(s, b)
    && OperatingDefined(b, pb)
    && AltmanDefined(b)
  }

  /** Every ratio of `c` stands in its defining relation to `c`'s statements
      and market close. */
  predicate RatiosHold(c: ConsolidatedStatement) {
    && ProfitabilityHolds(c.profitability, c.income)
    && LiquidityHolds(c.liquidity, c.balance)
    && WorkingCapitalHolds(c.workingCapital, c.income, c.balance, c.prior)
    && CoverageHolds(c.coverage, c.income)
    && LeverageHolds(c.leverage, c.balance, c.marketClose)
    && IndustryHolds(c.industry, c.income, c.balance, c.prior)
    && ValuationHolds(c.valuation, c.income, c.balance, c.marketClose, c.leverage)
    && OperatingHolds(c.operating, c.income, c.balance, c.prior)
    && AltmanHolds(c.altman, c.income, c.balance, c.workingCapital.currentWorkingCapital,
                   c.leverage.marketCapitalization)
  }

  /** The ratios of one year, once every denominator is known to be non-zero. */
  function Ratios(ticker: string, year: int, s: IS.IncomeStatement, b: BS.BalanceSheet, pb: BS.BalanceSheet, close: real): (c: ConsolidatedStatement)
    requires EarlyDefined(b, pb) && LateDefined(s, b, pb, close)
    ensures c.ticker == ticker && c.year == year && c.income == s && c.balance == b && c.prior == pb
    ensures c.marketClose == close
    ensures RatiosHold(c)
  {
    var workingCapital := WorkingCapitalOf(s, b, pb);
    var leverage := LeverageOf(b, close);
    ConsolidatedStatement(
      ticker, year, s, b, pb, close,
      ProfitabilityOf(s), LiquidityOf(b), workingCapital, CoverageOf(s), leverage,
      IndustryOf(s, b, pb), ValuationOf(s, b, close, leverage), OperatingOf(s, b, pb),
      AltmanOf(s, b, workingCapital.currentWorkingCapital, leverage.marketCapitalization))
  }

  /** Builds the ratios of one year from its income statement, its year-end
      balance sheet, the prior year-end balance sheet and the closing prices
      by balance-sheet date. Divisions before the price lookup abort first,
      then a missing price, then the divisions after it. */
  function Consolidate(ticker: string, year: int, s: IS.IncomeStatement, b: BS.BalanceSheet, pb: BS.BalanceSheet, closes: map<Date, real>)
    : (r: Result<ConsolidatedStatement, StatementError>)
    ensures r.Success? <==>
      EarlyDefined(b, pb) && b.statementDate in closes && LateDefined(s, b, pb, closes[b.statementDate])
    ensures !EarlyDefined(b, pb) ==> r == Failure(DivisionByZero)
    ensures EarlyDefined(b, pb) && b.statementDate !in closes ==> r == Failure(MissingPrice(b.statementDate))
    ensures EarlyDefined(b, pb) && b.statementDate in closes && !LateDefined(s, b, pb, closes[b.statementDate]) ==>
      r == Failure(DivisionByZero)
    ensures r.Success? ==>
      && r.value.ticker == ticker && r.value.year == year
      && r.value.income == s && r.value.balance == b && r.value.prior == pb
      && r.value.marketClose == closes[b.statementDate]
      && RatiosHold(r.value)
  {
    if !EarlyDefined(b, pb) then Failure(DivisionByZero)
    else if b.statementDate !in closes then Failure(MissingPrice(b.statementDate))
    else
      var close := closes[b.statementDate];
      if !LateDefined(s, b, pb, close) then Failure(DivisionByZero)
      else Success(Ratios(ticker, year, s, b, pb, close))
  }

  // ---------------------------------------------------------------------
  // Consequences.

  /** Zero revenue always aborts the construction (revenue divides the
      industry and valuation ratios unguarded), so the revenue guards of the
      margins and of days-in-receivables never select their fallback in a
      statement that is built. */
  lemma ZeroRevenueRefused(ticker: string, year: int, s: IS.IncomeStatement, b: BS.BalanceSheet, pb: BS.BalanceSheet, closes: map<Date, real>)
    requires s.revenue == 0.0
    ensures Consolidate(ticker, year, s, b, pb, closes).Failure?
  {
  }

  /** Return on equity is return on assets times the book equity multiplier. */
  lemma {:induction false} DuPont(c: ConsolidatedStatement)
    requires OperatingHolds(c.operating, c.income, c.balance, c.prior)
    requires LeverageHolds(c.leverage, c.balance, c.marketClose) && c.balance.totalEquity != 0.0
    ensures c.operating.returnOnEquity == c.operating.returnOnAssets * c.leverage.equityMultiplierBook
  {
    var roa := c.operating.returnOnAssets;
    var multiplier := c.leverage.equityMultiplierBook;
    var equity := c.balance.totalEquity;
    calc {
      c.operating.returnOnEquity * equity;
      c.income.netIncome;
      roa * c.balance.totalAssets;
      roa * (multiplier * equity);
      (roa * multiplier) * equity;
    }
    CancelFactor(c.operating.returnOnEquity, roa * multiplier, equity);
  }

  /** Two products with the same non-zero factor are equal only when the
      other factors are. */
  lemma CancelFactor(x: real, y: real, k: real)
    requires k != 0.0 && x * k == y * k
    ensures x == y
  {
    assert (x - y) * k == 0.0;
  }

  /** Debt-to-capital is debt-to-equity over one plus debt-to-equity. */
  lemma {:induction false} DebtToCapitalFromDebtToEquity(c: ConsolidatedStatement)
    requires LeverageHolds(c.leverage, c.balance, c.marketClose) && c.balance.totalEquity != 0.0
    ensures c.leverage.debtToCapital * (1.0 + c.leverage.debtToEquity) == c.leverage.debtToEquity
  {
    var l := c.leverage;
    var equity := c.balance.totalEquity;
    calc {
      l.debtToCapital * (1.0 + l.debtToEquity) * equity;
      l.debtToCapital * (equity + l.debtToEquity * equity);
      l.debtToCapital * (c.balance.totalDebt + equity);
      c.balance.totalDebt;
      l.debtToEquity * equity;
    }
    CancelFactor(l.debtToCapital * (1.0 + l.debtToEquity), l.debtToEquity, equity);
  }

  /** The price-to-earnings ratio relates market capitalisation to the
      earnings available to common shareholders. */
  lemma {:induction false} PriceToEarningsOfMarketCap(c: ConsolidatedStatement)
    requires ValuationHolds(c.valuation, c.income, c.balance, c.marketClose, c.leverage)
    requires LeverageHolds(c.leverage, c.balance, c.marketClose)
    ensures c.valuation.priceToEarnings * CommonEarnings(c.income) == c.leverage.marketCapitalization
  {
    var v := c.valuation;
    var shares := c.balance.sharesOutstanding;
    calc {
      v.priceToEarnings * CommonEarnings(c.income);
      v.priceToEarnings * (v.epsBasic * shares);
      (v.priceToEarnings * v.epsBasic) * shares;
      c.marketClose * shares;
    }
  }

  /** The market equity multiplier exceeds one by net debt over market
      capitalisation. */
  lemma {:induction false} MarketMultiplierOfNetDebt(c: ConsolidatedStatement)
    requires LeverageHolds(c.leverage, c.balance, c.marketClose)
    ensures (c.leverage.equityMultiplierMarket - 1.0) * c.leverage.marketCapitalization == c.leverage.netDebt
  {
    var l := c.leverage;
    calc {
      (l.equityMultiplierMarket - 1.0) * l.marketCapitalization;
      l.equityMultiplierMarket * l.marketCapitalization - l.marketCapitalization;
      l.enterpriseValue - l.marketCapitalization;
    }
  }

  // ---------------------------------------------------------------------
  // Report rows.

  /** One ratio handed to the reporting sink; the sink prints the category
      and the ratio through `N.TypeLabel` and `N.RatioLabel`. */
  datatype RatioRow = RatioRow(company: string, year: int, ratioType: N.RatioType, ratio: N.RatioName, value: real)

  /** The value a statement reports for one ratio. */
  function RatioValue(c: ConsolidatedStatement, n: N.RatioName): real {
    match n
    case GrossMargin => c.profitability.grossMargin
    case OperatingMargin => c.profitability.operatingMargin
    case EbitdaMargin => c.profitability.ebitdaMargin
    case NetProfitMargin => c.profitability.netProfitMargin
    case CurrentRatio => c.liquidity.currentRatio
    case QuickRatio => c.liquidity.quickRatio
    case CashRatio => c.liquidity.cashRatio
    case DaysInReceivables => c.workingCapital.arDays
    case ReceivablesTurnover => c.workingCapital.arTurnover
    case DaysInInventory => c.workingCapital.inventDays
    case InventoryTurnover => c.workingCapital.inventTurnover
    case DaysInPayables => c.workingCapital.apDays
    case PayablesTurnover => c.workingCapital.apTurnover
    case CashConversionCycle => c.workingCapital.cashConversionCycle
    case WorkingCapitalTurnover => c.workingCapital.workingCapTurnover
    case EbitInterestCoverage => c.coverage.ebitInterestCoverage
    case EbitdaInterestCoverage => c.coverage.ebitdaInterestCoverage
    case DebtToCapital => c.leverage.debtToCapital
    case DebtToEquity => c.leverage.debtToEquity
    case DebtToEnterpriseValue => c.leverage.debtToEnterpriseValue
    case EquityMultiplierBook => c.leverage.equityMultiplierBook
    case EquityMultiplierMarket => c.leverage.equityMultiplierMarket
    case RndToSales => c.industry.rndToSales
    case CapexToSales => c.industry.capxToSales
    case MarketToBook => c.valuation.marketToBook
    case PriceToEarnings => c.valuation.priceToEarnings
    case MarketToSales => c.valuation.marketToSales
    case EvToEbitda => c.valuation.evToEbitda
    case EvToSales => c.valuation.evToSales
    case EpsDiluted => c.valuation.epsDiluted
    case SharePrice => c.marketClose
    case SharesOutstanding => c.balance.sharesOutstanding
    case MarketCapitalization => c.leverage.marketCapitalization
    case NetDebt => c.leverage.netDebt
    case EnterpriseValue => c.leverage.enterpriseValue
    case AssetTurnover => c.operating.assetTurnover
    case ReturnOnAssets => c.operating.returnOnAssets
    case ReturnOnEquity => c.operating.returnOnEquity
    case ReturnOnInvestedCapital => c.operating.returnOnInvestedCapital
    case AltmanScore => c.altman.zScore
    case WorkingCapitalToAssets => c.altman.workingCapitalToAssets
    case RetainedEarningsToAssets => c.altman.retainedEarningsToAssets
    case EbitToAssets => c.altman.ebitToAssets
    case MarketValueToLiabilities => c.altman.marketValueToLiabilities
    case SalesToAssets => c.altman.salesToAssets
  }

  /** The report rows of a statement: one per ratio, in report order, each
      naming the statement's company and year and the ratio's category. */
  function RatioRows(c: ConsolidatedStatement): (rows: seq<RatioRow>)
    ensures |rows| == N.RowCount
    ensures forall i :: 0 <= i < |rows| ==> rows[i].company == c.ticker && rows[i].year == c.year
    ensures forall n :: rows[N.Position(n)] == RatioRow(c.ticker, c.year, N.CategoryOf(n), n, RatioValue(c, n))
    ensures rows[0].ratio == N.GrossMargin && rows[N.RowCount - 1].ratio == N.SalesToAssets
  {
    seq(N.RowCount, i requires 0 <= i < N.RowCount =>
      var n := N.NameAt(i);
      RatioRow(c.ticker, c.year, N.CategoryOf(n), n, RatioValue(c, n)))
  }

  /** The value the report shows on the row of ratio `n`. */
  function Reported(c: ConsolidatedStatement, n: N.RatioName): (v: real)
    ensures var row := RatioRows(c)[N.Position(n)]; row.ratio == n && row.value == v
  {
    RatioRows(c)[N.Position(n)].value
  }

  /** In the report of a statement whose ratios hold, the cash conversion
      cycle is days in inventory plus days in receivables less days in
      payables, and the working-capital turnover is revenue over the change
      in working capital. */
  lemma ReportedWorkingCapital(c: ConsolidatedStatement)
    requires WorkingCapitalHolds(c.workingCapital, c.income, c.balance, c.prior)
    ensures Reported(c, N.CashConversionCycle)
         == Reported(c, N.DaysInInventory) + Reported(c, N.DaysInReceivables) - Reported(c, N.DaysInPayables)
  {
  }

  /** In the report of a statement whose ratios hold, market capitalisation
      is share price times shares outstanding. */
  lemma ReportedMarketCap(c: ConsolidatedStatement)
    requires LeverageHolds(c.leverage, c.balance, c.marketClose)
    ensures Reported(c, N.MarketCapitalization) == Reported(c, N.SharePrice) * Reported(c, N.SharesOutstanding)
  {
  }

  /** In the report of a statement whose ratios hold, enterprise value is
      market capitalisation plus net debt. */
  lemma ReportedEnterpriseValue(c: ConsolidatedStatement)
    requires LeverageHolds(c.leverage, c.balance, c.marketClose)
    ensures Reported(c, N.EnterpriseValue) == Reported(c, N.MarketCapitalization) + Reported(c, N.NetDebt)
  {
  }

  /** In the report of a statement whose ratios hold, the Altman score
      weighs its five component rows by 1.2, 1.4, 3.3, 0.6 and 1.0. */
  lemma ReportedAltman(c: ConsolidatedStatement)
    requires AltmanHolds(c.altman, c.income, c.balance, c.workingCapital.currentWorkingCapital,
                         c.leverage.marketCapitalization)
    ensures Reported(c, N.AltmanScore)
         == 1.2 * Reported(c, N.WorkingCapitalToAssets) + 1.4 * Reported(c, N.RetainedEarningsToAssets)
          + 3.3 * Reported(c, N.EbitToAssets) + 0.6 * Reported(c, N.MarketValueToLiabilities)
          + 1.0 * Reported(c, N.SalesToAssets)
  {
  }

  /** With no revenue, the report shows the four margins as zero. */
  lemma ReportedMarginsWithoutRevenue(c: ConsolidatedStatement)
    requires ProfitabilityHolds(c.profitability, c.income) && c.income.revenue == 0.0
    ensures Reported(c, N.GrossMargin) == 0.0 && Reported(c, N.OperatingMargin) == 0.0
    ensures Reported(c, N.EbitdaMargin) == 0.0 && Reported(c, N.NetProfitMargin) == 0.0
  {
  }
}
