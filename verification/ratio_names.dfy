/** The categories and names of the reported ratios, with the labels the
    report prints for them. */
module RatioNames {

  datatype RatioType =
    | ProfitabilityType | LiquidityType | WorkingCapitalType | InterestCoverageType | LeverageType
    | IndustryType | ValuationType | OperatingType | AltmanType

  datatype RatioName =
    | GrossMargin | OperatingMargin | EbitdaMargin | NetProfitMargin
    | CurrentRatio | QuickRatio | CashRatio
    | DaysInReceivables | ReceivablesTurnover | DaysInInventory | InventoryTurnover
    | DaysInPayables | PayablesTurnover | CashConversionCycle | WorkingCapitalTurnover
    | EbitInterestCoverage | EbitdaInterestCoverage
    | DebtToCapital | DebtToEquity | DebtToEnterpriseValue | EquityMultiplierBook | EquityMultiplierMarket
    | RndToSales | CapexToSales
    | MarketToBook | PriceToEarnings | MarketToSales | EvToEbitda | EvToSales | EpsDiluted
    | SharePrice | SharesOutstanding | MarketCapitalization | NetDebt | EnterpriseValue
    | AssetTurnover | ReturnOnAssets | ReturnOnEquity | ReturnOnInvestedCapital
    | AltmanScore | WorkingCapitalToAssets | RetainedEarningsToAssets | EbitToAssets
    | MarketValueToLiabilities | SalesToAssets

  /** The category each ratio is reported under. */
  function CategoryOf(n: RatioName): RatioType {
    match n
    case GrossMargin | OperatingMargin | EbitdaMargin | NetProfitMargin => ProfitabilityType
    case CurrentRatio | QuickRatio | CashRatio => LiquidityType
    case DaysInReceivables | ReceivablesTurnover | DaysInInventory | InventoryTurnover
      | DaysInPayables | PayablesTurnover | CashConversionCycle | WorkingCapitalTurnover => WorkingCapitalType
    case EbitInterestCoverage | EbitdaInterestCoverage => InterestCoverageType
    case DebtToCapital | DebtToEquity | DebtToEnterpriseValue | EquityMultiplierBook
      | EquityMultiplierMarket => LeverageType
    case RndToSales | CapexToSales => IndustryType
    case MarketToBook | PriceToEarnings | MarketToSales | EvToEbitda | EvToSales | EpsDiluted
      | SharePrice | SharesOutstanding | MarketCapitalization | NetDebt | EnterpriseValue => ValuationType
    case AssetTurnover | ReturnOnAssets | ReturnOnEquity | ReturnOnInvestedCapital => OperatingType
    case AltmanScore | WorkingCapitalToAssets | RetainedEarningsToAssets | EbitToAssets
      | MarketValueToLiabilities | SalesToAssets => AltmanType
  }

  function TypeLabel(t: RatioType): string {
    match t
    case ProfitabilityType => "1 - Profitability Ratios"
    case LiquidityType => "2 - Liquidity Ratios"
    case WorkingCapitalType => "3 - Working Capital Ratios"
    case InterestCoverageType => "4 - Interest Coverage Ratios"
    case LeverageType => "5 - Leverage Ratios"
    case IndustryType => "6 - Industry Specific Ratios"
    case ValuationType => "7 - Valuation Ratios"
    case OperatingType => "8 - Operating Ratios"
    case AltmanType => "9 - Altman Z-Score"
  }

  function RatioLabel(n: RatioName): string {
    match n
    case GrossMargin => "1.1 - Gross Margin"
    case OperatingMargin => "1.2 - Operating Margin"
    case EbitdaMargin => "1.3 - EBITDA Margin"
    case NetProfitMargin => "1.4 - Net Profit Margin"
    case CurrentRatio => "2.1 - Current Ratio"
    case QuickRatio => "2.2 - Quick Ratio"
    case CashRatio => "2.3- Cash Ratio"
    case DaysInReceivables => "3.1 - Days in A/R"
    case ReceivablesTurnover => "3.2 - A/R Turnover"
    case DaysInInventory => "3.3 - Days in Inventory"
    case InventoryTurnover => "3.4 - Inventory Turnover"
    case DaysInPayables => "3.5 - Days in A/P"
    case PayablesTurnover => "3.6 - A/P Turnover"
    case CashConversionCycle => "3.7 - Cash Conversion Cycle"
    case WorkingCapitalTurnover => "3.8 - Working Capital Turnover"
    case EbitInterestCoverage => "4.1 - EBIT / Interest Coverage Ratio"
    case EbitdaInterestCoverage => "4.2 - EBITDA / Interest Coverage Ratio"
    case DebtToCapital => "5.1 - Debt-to-Capital Ratio"
    case DebtToEquity => "5.2 - Debt-to-Equity Ratio"
    case DebtToEnterpriseValue => "5.3 - Debt-to-Enterprise Value Ratio"
    case EquityMultiplierBook => "5.4 - Equity Multiplier (book)"
    case EquityMultiplierMarket => "5.5 - Equity Multiplier (market)"
    case RndToSales => "6.1 - R&D-to-Sales"
    case CapexToSales => "6.2 - CAPEX-to-Sales"
    case MarketToBook => "7.1 - Market-to-Book Ratio"
    case PriceToEarnings => "7.2 - Price-to-Earning Ratio"
    case MarketToSales => "7.3 - Market-to-Sales Ratio"
    case EvToEbitda => "7.4 - EV-to-EBITDA Ratio"
    case EvToSales => "7.5 - EV-to-Sales Ratio"
    case EpsDiluted => "7.6 - EPS (Fully Diluted)"
    case SharePrice => "7.7.1 - Share Price"
    case SharesOutstanding => "7.7.2 - Common Shares O/S"
    case MarketCapitalization => "7.7.3 - Market Capitalization (Share Price * Common Shares O/S)"
    case NetDebt => "7.7.4 - Net Debt"
    case EnterpriseValue => "7.7.5 - Enterprise Value"
    case AssetTurnover => "8.1 - Asset Turnover"
    case ReturnOnAssets => "8.2 - Return on Assets (ROA)"
    case ReturnOnEquity => "8.3 - Return on Equity (ROE)"
    case ReturnOnInvestedCapital => "8.4 - Return on Invested Capital (ROIC)"
    case AltmanScore => "9.1 - Altman Z-Score (1.2A + 1.4B + 3.3C + 0.6D + 1.0E)"
    case WorkingCapitalToAssets => "9.1.A - Working Capital / Total Assets Ratio"
    case RetainedEarningsToAssets => "9.1.B - Retained Earnings / Total Assets Ratio"
    case EbitToAssets => "9.1.C - EBIT / Total Assets Ratio"
    case MarketValueToLiabilities => "9.1.D - Market Value of Equity / Total Liabilities"
    case SalesToAssets => "9.1.E - Total Sales / Total Assets"
  }

  /** The number of rows the report holds for one statement. */
  const RowCount := 45

  /** The ratio on row `i` of the report, category by category. */
  function NameAt(i: nat): RatioName
    requires i < RowCount
  {
    if i == 0 then GrossMargin else
    if i == 1 then OperatingMargin else
    if i == 2 then EbitdaMargin else
    if i == 3 then NetProfitMargin else
    if i == 4 then CurrentRatio else
    if i == 5 then QuickRatio else
    if i == 6 then CashRatio else
    if i == 7 then DaysInReceivables else
    if i == 8 then ReceivablesTurnover else
    if i == 9 then DaysInInventory else
    if i == 10 then InventoryTurnover else
    if i == 11 then DaysInPayables else
    if i == 12 then PayablesTurnover else
    if i == 13 then CashConversionCycle else
    if i == 14 then WorkingCapitalTurnover else
    if i == 15 then EbitInterestCoverage else
    if i == 16 then EbitdaInterestCoverage else
    if i == 17 then DebtToCapital else
    if i == 18 then DebtToEquity else
    if i == 19 then DebtToEnterpriseValue else
    if i == 20 then EquityMultiplierBook else
    if i == 21 then EquityMultiplierMarket else
    if i == 22 then RndToSales else
    if i == 23 then CapexToSales else
    if i == 24 then MarketToBook else
    if i == 25 then PriceToEarnings else
    if i == 26 then MarketToSales else
    if i == 27 then EvToEbitda else
    if i == 28 then EvToSales else
    if i == 29 then EpsDiluted else
    if i == 30 then SharePrice else
    if i == 31 then SharesOutstanding else
    if i == 32 then MarketCapitalization else
    if i == 33 then NetDebt else
    if i == 34 then EnterpriseValue else
    if i == 35 then AssetTurnover else
    if i == 36 then ReturnOnAssets else
    if i == 37 then ReturnOnEquity else
    if i == 38 then ReturnOnInvestedCapital else
    if i == 39 then AltmanScore else
    if i == 40 then WorkingCapitalToAssets else
    if i == 41 then RetainedEarningsToAssets else
    if i == 42 then EbitToAssets else
    if i == 43 then MarketValueToLiabilities else
    SalesToAssets
  }

  /** The row a ratio sits on: every ratio is reported. */
  function Position(n: RatioName): (i: nat)
    ensures i < RowCount && NameAt(i) == n
  {
    match n
    case GrossMargin => 0
    case OperatingMargin => 1
    case EbitdaMargin => 2
    case NetProfitMargin => 3
    case CurrentRatio => 4
    case QuickRatio => 5
    case CashRatio => 6
    case DaysInReceivables => 7
    case ReceivablesTurnover => 8
    case DaysInInventory => 9
    case InventoryTurnover => 10
    case DaysInPayables => 11
    case PayablesTurnover => 12
    case CashConversionCycle => 13
    case WorkingCapitalTurnover => 14
    case EbitInterestCoverage => 15
    case EbitdaInterestCoverage => 16
    case DebtToCapital => 17
    case DebtToEquity => 18
    case DebtToEnterpriseValue => 19
    case EquityMultiplierBook => 20
    case EquityMultiplierMarket => 21
    case RndToSales => 22
    case CapexToSales => 23
    case MarketToBook => 24
    case PriceToEarnings => 25
    case MarketToSales => 26
    case EvToEbitda => 27
    case EvToSales => 28
    case EpsDiluted => 29
    case SharePrice => 30
    case SharesOutstanding => 31
    case MarketCapitalization => 32
    case NetDebt => 33
    case EnterpriseValue => 34
    case AssetTurnover => 35
    case ReturnOnAssets => 36
    case ReturnOnEquity => 37
    case ReturnOnInvestedCapital => 38
    case AltmanScore => 39
    case WorkingCapitalToAssets => 40
    case RetainedEarningsToAssets => 41
    case EbitToAssets => 42
    case MarketValueToLiabilities => 43
    case SalesToAssets => 44
  }

  /** No ratio is reported twice: a row's ratio sits on that row. */
  lemma NamesDistinct(i: nat)
    requires i < RowCount
    ensures Position(NameAt(i)) == i
  {
  }

  /** The rank of a category in the report. */
  function TypeRank(t: RatioType): nat {
    match t
    case ProfitabilityType => 1
    case LiquidityType => 2
    case WorkingCapitalType => 3
    case InterestCoverageType => 4
    case LeverageType => 5
    case IndustryType => 6
    case ValuationType => 7
    case OperatingType => 8
    case AltmanType => 9
  }

  /** The category of row `i`, by the row ranges the report uses. */
  function CategoryAt(i: nat): RatioType
    requires i < RowCount
  {
    if i < 4 then ProfitabilityType
    else if i < 7 then LiquidityType
    else if i < 15 then WorkingCapitalType
    else if i < 17 then InterestCoverageType
    else if i < 22 then LeverageType
    else if i < 24 then IndustryType
    else if i < 35 then ValuationType
    else if i < 39 then OperatingType
    else AltmanType
  }

  /** Each row's ratio belongs to the category of the row's range. */
  lemma CategoryOfRow(i: nat)
    requires i < RowCount
    ensures CategoryOf(NameAt(i)) == CategoryAt(i)
  {
    if i < 15 {
      if i < 7 {} else {}
    } else if i < 30 {
      if i < 22 {} else {}
    } else {
      if i < 37 {} else {}
    }
  }

  /** The report groups the ratios by category, in category order. */
  lemma RowsGroupedByCategory(i: nat, j: nat)
    requires i <= j < RowCount
    ensures TypeRank(CategoryOf(NameAt(i))) <= TypeRank(CategoryOf(NameAt(j)))
  {
    CategoryOfRow(i);
    CategoryOfRow(j);
  }
}
