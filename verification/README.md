# Financial statements engine — a Dafny model

This project models the engine that turns a company's raw quarterly
accounting records into normalised statements and a yearly set of
financial ratios. It has six parts.

- **Period normaliser.** This is `return_adjusted_quarter_and_year`. A
  statement date's month gives a calendar quarter. A three-slot window of
  (quarter, year) pairs is built around that quarter, with the year
  rolling over at the first and fourth quarters. Slot `offset + 1` of the
  window is returned.
- **Income statement.** `IncomeStatement` reads the raw lines of a record
  and negates the three cost lines. It derives revenue, the
  operating-expense and other-expense residuals, taxes, a zero-guarded tax
  rate, NOPAT and EBITDA. `combine_income_statements_to_dict` annualises a
  list of quarters. `add_other_income_statement` adds values onto named
  attributes. `return_data_list` produces eight report rows.
- **Balance sheet.** `BalanceSheet` derives the residual "other" lines so
  that every subtotal closes. It refuses a sheet whose assets differ from
  its liabilities plus equity. `return_data_list` produces fifteen report
  rows.
- **Cash-flow statement.** `CashFlowStatement` reads capital expenditure.
  Its combine takes the latest date and sums capex.
- **Ratio engine.** `ConsolidatedStatement.__init__` computes the ratios
  of one year from:
  - the annual income statement;
  - the year-end balance sheet and the prior year-end balance sheet;
  - a market close price.

  Some ratios are guarded by revenue, cost of revenue or interest expense.
  Every other ratio divides unguarded. `return_data_list` produces 45
  report rows.
- **Company aggregator.** `Company.return_statement_groups` does the
  following:
  - it derives every record;
  - it groups the income statements by fiscal year;
  - it keeps the first fourth-quarter balance sheet of each year;
  - it drops the last year kept;
  - it builds one consolidated statement per remaining year that has
    income statements and is from 2002 on.

  `return_is_data_list` and `return_bs_data_list` flatten the report rows.

## How the model is built

- Amounts are `real`.
- Dates are `Records.Date`, ordered by year, then month, then day.
- A raw record has an optional statement date and a map from line-item
  names (`LineItems.LineItem`) to amounts.
- Every Python exception the core can raise is a `Failure` of
  `Records.StatementError`:
  - a `KeyError` on a record becomes `MissingDate` or
    `MissingField(item)`. The item is the first missing one, in the order
    the constructor reads them;
  - the window `IndexError` becomes `IndexOutOfRange`;
  - `max` of no dates becomes `EmptySequence`;
  - the balance-sheet `ValueError` becomes `IntegrityError(ticker,
    quarter, year)`;
  - an unknown attribute becomes `UnknownAttribute`;
  - a missing year-end sheet becomes `MissingYear(year)`;
  - a missing price becomes `MissingPrice(date)`;
  - a `ZeroDivisionError` becomes `DivisionByZero`.
- Every ratio is specified by the product it must satisfy
  (`grossMargin * revenue == grossProfit`), not by the quotient that
  computes it.
- The closing prices are a parameter: a map from balance-sheet date to
  price.
- Python dictionaries whose insertion order matters carry their key order
  as an explicit list:
  - `Companies.IncomeGroups` for the income statements by year;
  - `Companies.YearEnds` for the year-end sheets.
- The aggregator returns the statements as a list where the source
  returns a dictionary keyed by year. The list keeps the dictionary's
  insertion order. That is the order in which the years first appear
  among the income statements, not sorted order.
  `Companies.StatementGroupsYears` proves that the years are distinct and
  in that order.

The model follows the code where the written description of the system
differs from it:

- The description says offsets outside −1..1 fail. The code indexes a
  Python list, so offsets −4..−2 wrap round to `offset + 3` and succeed.
  Only offsets ≥ 2 and ≤ −5 fail (`Periods.NegativeOffsetWraps`).
- The description says restricting to years after 2001 guarantees a prior
  year-end sheet. The code looks that sheet up unguarded, so a missing
  prior year end aborts the whole construction
  (`Companies.StatementGroupsNeedPriorYear`).

## Model

| member | source | states |
|---|---|---|
| Records.Latest | models/income_statement.py:211 | the latest of a non-empty list of dates is one of them and no date of the list is after it |
| Records.FirstMissing | models/income_statement.py:56-92 | a reported missing key is one of the required keys and is absent; when the first required key is absent, it is the one reported |
| Records.FirstMissingIsFirst | models/income_statement.py:56-92 | the reported missing key is the earliest absent one: every required key read before it is present |
| Records.FirstMissingNone | models/balance_sheet.py:53-99 | no key is reported missing exactly when every required key is present |
| Periods.CalendarQuarter | models/utilities.py:17-24 | months 1–3 give quarter 1, 4–6 give 2, 7–9 give 3 and 10–12 give 4 |
| Periods.Window | models/utilities.py:29-49 | the window has three slots: the calendar period in the middle, the period before it, and the period after it, with the year rolling over; every slot has a quarter in 1..4 |
| Periods.ListIndex | models/utilities.py:51-52 | Python list indexing: it succeeds exactly for indices −len..len−1, and negative indices count from the end |
| Periods.AdjustedQuarterAndYear | models/utilities.py:7-54 | it succeeds exactly for offsets −4..1, and fails with an index error for offsets ≥ 2 and ≤ −5. Offset 0 gives the calendar period. Offset 1 gives the next period. Offset −1 gives the period whose successor is the calendar period. For −1..1 the quarter is in 1..4 and the year is within one of the date's year |
| Periods.FirstQuarterWindow | models/utilities.py:29-35 | in the first quarter, offset −1 gives (4, year−1), 0 gives (1, year) and +1 gives (2, year) |
| Periods.FourthQuarterWindow | models/utilities.py:36-42 | in the fourth quarter, offset −1 gives (3, year), 0 gives (4, year) and +1 gives (1, year+1) |
| Periods.MiddleQuarterWindow | models/utilities.py:43-49 | in the second and third quarters, the quarter moves by the offset and the year stays |
| Periods.NegativeOffsetWraps | models/utilities.py:51-52 | offsets −4..−2 do not fail: they give the same period as `offset + 3` |
| IncomeStatements.AttributeOf | models/income_statement.py:186-189 | an attribute name denotes a field exactly when it is that field's name |
| IncomeStatements.IncomeItemsPresent | models/income_statement.py:56-92 | the record has every unconditionally read line exactly when none of them is missing |
| IncomeStatements.RateOfTax | models/income_statement.py:77-80 | the tax rate is zero without pretax income; otherwise rate × pretax income = taxes |
| IncomeStatements.AfterTax | models/income_statement.py:81 | NOPAT = operating income − operating income × tax rate |
| IncomeStatements.Derive | models/income_statement.py:47-92 | the statement carries the ticker, date and period, reads every line from the record with the three cost lines negated, and its residual lines close every subtotal (revenue = gross profit − COGS; opex + SG&A + R&D = operating income − gross profit; interest + other = pretax − operating; taxes = pretax − net income; EBITDA = EBIT + D&A); preferred dividends default to zero |
| IncomeStatements.DeriveIncomeStatement | models/income_statement.py:47-92 | it succeeds exactly when the record is dated, the offset is in −4..1 and every required line is present. Errors come in the order the constructor reads: a missing date, then the window index, then the first missing line. On success the quarter and year are the normaliser's result for the statement's date, and revenue = gross profit + raw cost of revenue |
| IncomeStatements.CombinedValues | models/income_statement.py:196-225 | the combined record holds every line the deriver needs, preferred dividends included |
| IncomeStatements.CombineIncomeStatements | models/income_statement.py:192-227 | it succeeds exactly for a non-empty list (otherwise `EmptySequence`); the combined date is one of the quarters' dates and not before any of them |
| IncomeStatements.CombinedGrossProfitTotals | models/income_statement.py:196-215 | the combined gross profit and operating income are the quarters' totals; the combined cost of revenue is the negated COGS total |
| IncomeStatements.CombinedOperatingCostTotals | models/income_statement.py:199-216 | the combined SG&A and R&D lines are the negated totals |
| IncomeStatements.CombinedOtherTotals | models/income_statement.py:201-220 | pretax income, net interest, net income and interest expense are the quarters' totals |
| IncomeStatements.CombinedPerShareTotals | models/income_statement.py:205-224 | EBIT, D&A, preferred dividends and diluted EPS are the quarters' totals |
| IncomeStatements.AllArticulateMeans | models/income_statement.py:56-87 | the recursive "every quarter articulates" predicate is the quantified statement |
| IncomeStatements.ArticulatedTotals | models/income_statement.py:196-208 | over articulated quarters, total revenue = total gross profit − total COGS, total taxes = total pretax − total net income, and total EBITDA = total EBIT + total D&A |
| IncomeStatements.AnnualisedReads | models/income_statement.py:192-227 | re-deriving from the combined record of any non-empty run of quarters succeeds and articulates. Every line it reads is the quarters' total, with the cost signs restored: gross profit, COGS, SG&A, R&D, operating income, pretax income, net interest, net income, interest expense, EBIT, D&A, preferred dividends and diluted EPS |
| IncomeStatements.AnnualisedStatement | models/income_statement.py:56-87 | for articulated quarters, the annual statement's COGS, SG&A, R&D, revenue, taxes and EBITDA are the sums of the quarters' own values |
| IncomeStatements.AddAmountsFields | models/income_statement.py:186-189 | after adding, every field is its old value plus the amount supplied under its name, or unchanged when none is supplied |
| IncomeStatements.AddOtherIncomeStatement | models/income_statement.py:182-189 | it succeeds exactly when every supplied name is ignored or names an amount; ticker, date, quarter and year are unchanged, and every amount field gains exactly its supplied value |
| IncomeStatements.IncomeRows | models/income_statement.py:111-180 | eight rows, each with the statement's ticker, date, quarter and year. The first row carries revenue and the last carries taxes. For an articulated statement the first seven rows add up to pretax income, and pretax income less the taxes row is net income |
| BalanceSheets.BalanceItemsPresent | models/balance_sheet.py:53-99 | the record has every unconditionally read line exactly when none of them is missing |
| BalanceSheets.DeriveSheet | models/balance_sheet.py:44-102 | the sheet reads every line from the record (short-term investments = cash-and-investments − cash; minority interest defaults to zero); every subtotal closes; and the sheet balances exactly when the record's subtotals satisfy assets = liabilities + equity |
| BalanceSheets.DeriveBalanceSheet | models/balance_sheet.py:44-106 | it succeeds exactly when the record is dated, the offset is in −4..1, every required line is present and the record balances. The errors are a missing date, then the window index, then the first missing line, then an integrity error naming the ticker and adjusted period. On success the period is the normaliser's result, every subtotal closes and the sheet balances |
| BalanceSheets.CheckBalance | models/balance_sheet.py:104-106 | the sheet passes unchanged exactly when assets = liabilities + equity; otherwise an integrity error names its ticker, quarter and year |
| BalanceSheets.AssetRows | models/balance_sheet.py:131-203 | nine rows with the sheet's ticker, date and period; for a sheet whose subtotals close they add up to total assets |
| BalanceSheets.ClaimRows | models/balance_sheet.py:204-252 | six rows with the sheet's ticker, date and period; the equity row carries total equity; they add up to liabilities plus equity |
| BalanceSheets.BalanceRows | models/balance_sheet.py:129-254 | fifteen rows with the sheet's ticker, date and period; the "Stockholders Equity" row carries total equity |
| BalanceSheets.DerivedRowsBalance | models/balance_sheet.py:104-106 | in the report of any derived sheet, the asset rows and the liability and equity rows have the same total |
| CashFlowStatements.DeriveCashFlowStatement | models/cashflow_statement.py:47-56 | it succeeds exactly when the record is dated, the offset is in −4..1 and capex is present, and fails in that order; the period is the normaliser's result and capex is copied |
| CashFlowStatements.TotalCapexAppend | models/cashflow_statement.py:66 | summing capex over two lists in turn is summing over their concatenation |
| CashFlowStatements.CombineCashFlowStatements | models/cashflow_statement.py:62-73 | it succeeds exactly for a non-empty list; the combined date is one of the dates and not before any of them; the combined capex is the total |
| CashFlowStatements.AnnualisedCashFlow | models/cashflow_statement.py:47-73 | re-deriving from the combined record of a non-empty list succeeds with the summed capex and the latest date |
| ConsolidatedStatements.ProfitabilityOf | models/consolidated_statement.py:46-55 | with zero revenue all four margins are zero; otherwise each margin × revenue is its numerator |
| ConsolidatedStatements.LiquidityOf | models/consolidated_statement.py:58-64 | the current, quick and cash ratios × current liabilities give current assets, cash + short-term investments + receivables, and cash |
| ConsolidatedStatements.ReceivableDays | models/consolidated_statement.py:72-75 | zero without revenue; otherwise days × revenue = 365 × receivables |
| ConsolidatedStatements.CostDays | models/consolidated_statement.py:76-81 | zero without cost of revenue; otherwise days × COGS = −365 × amount |
| ConsolidatedStatements.Turnover | models/consolidated_statement.py:84-91 | turnover × (current + prior) = 2 × flow |
| ConsolidatedStatements.WorkingCapitalOf | models/consolidated_statement.py:68-91 | the working-capital values and the guarded days hold; cash conversion cycle = days in inventory + days in receivables − days in payables; each turnover is its flow over the two-period average |
| ConsolidatedStatements.CoverageOf | models/consolidated_statement.py:94-101 | zero interest expense makes both coverages zero; otherwise coverage × interest expense is EBIT or EBITDA |
| ConsolidatedStatements.LeverageOf | models/consolidated_statement.py:108-119 | market cap = close × shares; net debt = liabilities − cash; EV = market cap + net debt; and each leverage ratio times its denominator gives its numerator |
| ConsolidatedStatements.IndustryOf | models/consolidated_statement.py:122-126 | capex = gross PPE − prior gross PPE + D&A; the R&D and capex ratios × revenue give −R&D and capex |
| ConsolidatedStatements.BasicEps | models/consolidated_statement.py:134-135 | basic EPS × shares = net income − preferred dividends, and basic EPS is non-zero exactly when those earnings are |
| ConsolidatedStatements.ValuationOf | models/consolidated_statement.py:129-136 | each valuation ratio × its denominator gives market cap or EV; diluted EPS is copied; price-to-earnings × basic EPS = close |
| ConsolidatedStatements.OperatingOf | models/consolidated_statement.py:139-143 | asset turnover is revenue over average assets; ROA, ROE and ROIC × their denominators give net income, net income and NOPAT |
| ConsolidatedStatements.AltmanOf | models/consolidated_statement.py:146-156 | the five components × their denominators give their numerators, and the score is 1.2A + 1.4B + 3.3C + 0.6D + 1.0E of the stored components |
| ConsolidatedStatements.Ratios | models/consolidated_statement.py:34-156 | with every denominator non-zero, the statement keeps its inputs and every ratio holds |
| ConsolidatedStatements.Consolidate | models/consolidated_statement.py:34-156 | it succeeds exactly when every unguarded denominator is non-zero and the price exists. Failures come in source order: an early division by zero, then the missing price, then a late division by zero. On success the inputs are kept and every ratio holds |
| ConsolidatedStatements.ZeroRevenueRefused | models/consolidated_statement.py:122-123 | zero revenue always aborts the construction, so the revenue guards never choose their fallback in a built statement |
| ConsolidatedStatements.DuPont | models/consolidated_statement.py:118-142 | ROE = ROA × book equity multiplier |
| ConsolidatedStatements.DebtToCapitalFromDebtToEquity | models/consolidated_statement.py:108-111 | debt-to-capital × (1 + debt-to-equity) = debt-to-equity |
| ConsolidatedStatements.PriceToEarningsOfMarketCap | models/consolidated_statement.py:114-136 | price-to-earnings × common earnings = market capitalisation |
| ConsolidatedStatements.MarketMultiplierOfNetDebt | models/consolidated_statement.py:113-119 | (market equity multiplier − 1) × market cap = net debt |
| ConsolidatedStatements.RatioRows | models/consolidated_statement.py:161-445 | 45 rows, each with the statement's company and year. Every ratio's row carries that ratio, its category and its value. The rows run from Gross Margin through Total Sales/Total Assets |
| ConsolidatedStatements.Reported | models/consolidated_statement.py:161-445 | the value shown on the row that names ratio `n` |
| ConsolidatedStatements.ReportedWorkingCapital | models/consolidated_statement.py:82 | the reported cash conversion cycle is days in inventory + days in A/R − days in A/P, as reported |
| ConsolidatedStatements.ReportedMarketCap | models/consolidated_statement.py:114 | the reported market capitalisation is the reported share price × the reported shares outstanding |
| ConsolidatedStatements.ReportedEnterpriseValue | models/consolidated_statement.py:113-116 | the reported enterprise value is the reported market capitalisation + the reported net debt |
| ConsolidatedStatements.ReportedAltman | models/consolidated_statement.py:151-156 | the reported Z-score is 1.2, 1.4, 3.3, 0.6 and 1.0 times the five reported components |
| ConsolidatedStatements.ReportedMarginsWithoutRevenue | models/consolidated_statement.py:46-50 | without revenue the report shows all four margins as zero |
| RatioNames.Position | models/consolidated_statement.py:161-445 | every ratio is reported, on a row that names it |
| RatioNames.NamesDistinct | models/consolidated_statement.py:161-445 | no ratio is reported on two rows |
| RatioNames.CategoryOfRow | models/consolidated_statement.py:161-445 | each row's ratio belongs to the category of the row's range (rows 1–4 profitability, …, 40–45 Altman) |
| RatioNames.RowsGroupedByCategory | models/consolidated_statement.py:161-445 | the categories appear in the report in order 1 to 9 |
| Companies.DeriveAll | models/company.py:71-74 | a derived list has one statement per record |
| Companies.DeriveAllMeans | models/company.py:71-74 | the list is derived exactly when every record derives, element by element in order; otherwise the error is that of the first record that fails |
| Companies.ConcatMember | models/company.py:48 | a row is in the flattened list exactly when it is in one statement's rows |
| Companies.ConcatLength | models/company.py:48 | parts of one width n flatten to n rows per part |
| Companies.ConcatIndex | models/company.py:48 | with parts of one width n, row k of part i is at position n·i + k of the flattened list |
| Companies.IncomeDataList | models/company.py:37-50 | the list is produced exactly when every record derives. It has eight rows per statement, and row k of statement i is at position 8i + k, so the statements' rows follow each other in file order |
| Companies.IncomeStatementsNamed | models/company.py:71-74 | every income statement names the company and sits in the normalised period of its date |
| Companies.IncomeDataListRows | models/company.py:37-50 | eight rows per record, each naming the company |
| Companies.FourthQuarters | models/company.py:61-62 | a sheet is kept exactly when it is a fourth-quarter sheet of the list |
| Companies.BalanceDataList | models/company.py:52-66 | the list is produced exactly when every record derives and balances. It has fifteen rows per fourth-quarter sheet, and row k of the i-th such sheet is at position 15i + k, so the sheets' rows follow each other in file order |
| Companies.BalanceSheetsNamed | models/company.py:86-89 | every balance sheet names the company |
| Companies.SheetRowsLabelled | models/balance_sheet.py:129-252 | each report row of a sheet carries its ticker and quarter |
| Companies.BalanceDataListRows | models/company.py:52-66 | every reported balance row is from a fourth quarter and names the company |
| Companies.BalanceDataListLength | models/company.py:52-66 | fifteen rows per fourth-quarter sheet |
| Companies.OfYear | models/company.py:79-83 | a statement is in its year's list exactly when it has that year |
| Companies.OfYearAppend | models/company.py:82-83 | appending a statement extends its own year's list and no other |
| Companies.GroupYears | models/company.py:79-83 | the group years are listed once each and are exactly the years with a group, that is, the years of some statement. They are listed in the order their first statements appear |
| Companies.FirstOfYear | models/company.py:79-81 | the position of the first statement of a year, or the list length when none has that year: no earlier statement has that year |
| Companies.FirstOfYearAppend | models/company.py:79-83 | appending a statement moves no year's first position, and gives a year without statements its first one |
| Companies.GroupKeys | models/company.py:79-83 | the group years are distinct and are exactly the years with a group |
| Companies.GroupOrder | models/company.py:79-83 | the group years are the years of some statement, in the order of their first statements |
| Companies.GroupContents | models/company.py:79-83 | a year has a group exactly when some statement has that year, and the group is exactly that year's statements in input order |
| Companies.FirstYearEndMeans | models/company.py:94-98 | the year end found is a fourth-quarter sheet of the year that no earlier sheet matches; none is found only when no sheet is one |
| Companies.FirstYearEndAppend | models/company.py:94-98 | an appended sheet becomes the year end only of a year that has none yet |
| Companies.YearEndYears | models/company.py:92-98 | the year-end years are listed once each and are exactly the years with a year end, that is, the years of some fourth-quarter sheet. They are listed in the order their first fourth-quarter sheets appear |
| Companies.FirstYearEndAt | models/company.py:94-96 | the position of the first fourth-quarter sheet of a year, or the list length when there is none: no earlier sheet is one |
| Companies.FirstYearEndAtAppend | models/company.py:94-98 | appending a sheet moves no year end's first position, and gives a year without one its first one when the sheet is one |
| Companies.YearEndKeys | models/company.py:92-98 | the year-end years are distinct and are exactly the years with a year end |
| Companies.YearEndOrder | models/company.py:92-98 | the year-end years are the years of some fourth-quarter sheet, in the order of their first ones |
| Companies.YearEndContents | models/company.py:94-98 | a year has a year end exactly when it has a fourth-quarter sheet, and the first such sheet wins |
| Companies.DropLast | models/company.py:103 | `[:-1]`: the list without its last element, and an empty list stays empty |
| Companies.DroppedYearEndIsLast | models/company.py:103 | `[:-1]` drops the year whose first fourth-quarter sheet comes last in the list, and keeps every other year that has one |
| Companies.Candidates | models/company.py:107 | a year is a candidate exactly when it has income statements, is in the kept year-end years and is after 2000 |
| Companies.CandidatesDistinct | models/company.py:107 | filtering keeps distinct years distinct |
| Companies.CandidatesInOrder | models/company.py:107 | the candidate filter keeps years in the order of their first income statements |
| Companies.AtLeast | models/company.py:110-111 | a year is kept exactly when it is from 2002 on |
| Companies.AtLeastDistinct | models/company.py:110-111 | filtering keeps distinct years distinct |
| Companies.AtLeastInOrder | models/company.py:110-111 | the filter from 2002 on keeps years in the order of their first income statements |
| Companies.AnnualStatement | models/company.py:115-117 | it succeeds exactly for a non-empty group and an offset in −4..1, and an empty group fails with `EmptySequence`. The annual statement names the company. It is dated at the latest of its quarters' dates. It articulates, and every line it reads is the quarters' total |
| Companies.SheetPairOf | models/company.py:118-119 | the year's and the prior year's year ends are found exactly when both exist; otherwise the first missing year is reported |
| Companies.BuildYear | models/company.py:112-120 | a built statement is for its year. Its income is the annual statement of that year's group, and its sheets are that year's and the prior year's year ends. It is priced at the close of its year-end sheet's date and its ratios hold. A missing prior year end fails with that year |
| Companies.ConsolidateYear | models/company.py:112-120 | a built statement carries the given income and the year ends of its year and the year before. It is priced at the close of its year-end sheet's date and its ratios hold. A missing year end is reported by year |
| Companies.BuildAllYears | models/company.py:110-121 | the statements built are those of the years from 2002 on, in order |
| Companies.BuildAllEntries | models/company.py:110-121 | every statement built is for a year from 2002 on. It is made of that year's group and year ends, is priced at its year-end date's close, and its ratios hold |
| Companies.BuildAllNeedsPriorYear | models/company.py:118-119 | a year from 2002 on without a prior year end makes the whole construction fail |
| Companies.AnnualYear | models/company.py:115-117 | the annual statement of one year's group is normalised into that year again |
| Companies.GroupByYearGroups | models/company.py:79-83 | every group is exactly the statements of its year |
| Companies.SelectYearEndsOf | models/company.py:94-98 | every kept year end is the first fourth-quarter sheet of its year |
| Companies.BuiltYearSheets | models/company.py:118-119 | a statement built from the kept year ends pairs the first fourth-quarter sheets of its year and the year before |
| Companies.BuiltYearIncome | models/company.py:115-117 | a statement built from the groups carries the annual statement of its year's statements, dated in that year |
| Companies.StatementGroupsEntries | models/company.py:68-123 | every consolidated statement is for a year from 2002 on. Its sheets are the first fourth-quarter sheets of its year and the year before. Its income statement is the annual statement of that year's income statements, dated in that year. It is priced at the close of its year-end sheet's date, and its ratios hold |
| Companies.StatementGroupsYears | models/company.py:102-121 | the statement years are distinct and in the order they first appear among the income statements. They are exactly the years from 2002 on that have income statements and a kept year end other than the last one kept |
| Companies.CandidateWithoutPriorYear | models/company.py:102-107 | such a year is a candidate, and without a fourth-quarter sheet for the year before, that year has no kept year end |
| Companies.StatementGroupsNeedPriorYear | models/company.py:118-119 | a candidate year from 2002 on without a fourth-quarter sheet for the year before makes the whole construction fail |

## Left out

- CSV loading and cleaning with pandas (`return_quarterly_*_df`, `convert_*_df_to_records_dict`) and the file loading in `Company.__init__`: these are file I/O through a foreign library. The records are parameters.
- `return_market_close_dict` and `return_market_close`: these read price files and format dates. The closes are a parameter, a map from the balance-sheet date to the price, and a missing date is `MissingPrice`.
- The `print` calls, `print_income_statement`, `print_balance_sheet` and the `__repr__` methods are console output only. The render scripts are orchestration and CSV writing.
- IEEE floating point: amounts are exact reals. The exact A = L + E test and the Altman weights are therefore exact equalities, and rounding is not modelled.
- Ratio and category labels are enumerations (`RatioNames.RatioName`, `RatioNames.RatioType`). The printed strings are `RatioNames.RatioLabel` and `RatioNames.TypeLabel`, which carry no contract.
- IncomeStatements.AddOtherIncomeStatement: the source mutates in place, so an unknown attribute raises after the earlier names have already been added. The model refuses the whole addition instead. Any non-amount attribute or unknown name, whether it raises `AttributeError` or `TypeError`, is the one error `UnknownAttribute`.
- ConsolidatedStatements.Consolidate: every unguarded zero denominator is the single error `DivisionByZero`. Which division raises first is not distinguished, except that divisions before the price lookup come before `MissingPrice`.
- Companies.StatementGroups: the result is a list rather than a dictionary keyed by year. The list is in the dictionary's insertion order, which is the order the years first appear among the income statements. No contract states when the whole construction succeeds; its entries, years and the prior-year failure are stated by the lemmas above.
- The cash-flow statement is not used by the aggregator in the source, so it is modelled on its own.
