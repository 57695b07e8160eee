/** The names of the raw line items the derivers read from a record. */
module LineItems {

  datatype LineItem =
    // income statement
    | GrossProfit | CostOfRevenue | OperatingIncome | SellingGeneralAndAdministration
    | ResearchAndDevelopment | PretaxIncome | NetInterestIncome | NetIncome
    | InterestExpense | EBIT | ReconciledDepreciation | PreferredStockDividends | DilutedEPS
    // balance sheet
    | CurrentAssets | CashAndCashEquivalents | CashCashEquivalentsAndShortTermInvestments
    | Receivables | Inventory | TotalNonCurrentAssets | NetPPE | GrossPPE | Goodwill
    | OtherIntangibleAssets | CurrentLiabilities | Payables | CurrentAccruedExpenses
    | TotalNonCurrentLiabilitiesNetMinorityInterest | LongTermDebtAndCapitalLeaseObligation
    | TotalDebt | StockholdersEquity | MinorityInterest | RetainedEarnings | OrdinarySharesNumber
    // cash-flow statement
    | CapitalExpenditure
}
