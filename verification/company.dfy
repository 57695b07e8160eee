/** One company's statements: every quarterly record derived into a
    statement, the income statements grouped by fiscal year, the first
    fourth-quarter balance sheet of each year kept as that year's year end,
    and one consolidated statement built per year that has an income group,
    a year-end sheet that is not the last one seen, and a prior year end. */
module Companies {
  import opened Wrappers
  import opened Records
  import opened Periods
  import IS = IncomeStatements
  import BS = BalanceSheets
  import CS = ConsolidatedStatements

  // ---------------------------------------------------------------------
  // Deriving every record of a file.

  /** Derives every record in turn; the first record that cannot be derived
      aborts the whole list with its error. */
  function DeriveAll<T>(derive: RawRecord -> Result<T, StatementError>, recs: seq<RawRecord>): (r: Result<seq<T>, StatementError>)
    ensures r.Success? ==> |r.value| == |recs|
  {
    if |recs| == 0 then Success([])
    else
      var x :- derive(recs[0]);
      var rest :- DeriveAll(derive, recs[1..]);
      Success([x] + rest)
  }

  /** The list is derived exactly when every record is, element by element;
      otherwise the error is that of the first record that fails. */
  lemma {:induction false} DeriveAllMeans<T>(derive: RawRecord -> Result<T, StatementError>, recs: seq<RawRecord>)
    ensures DeriveAll(derive, recs).Success? <==> forall i :: 0 <= i < |recs| ==> derive(recs[i]).Success?
    ensures DeriveAll(derive, recs).Success? ==>
      forall i :: 0 <= i < |recs| ==> derive(recs[i]) == Success(DeriveAll(derive, recs).value[i])
    ensures DeriveAll(derive, recs).Failure? ==>
      exists i :: 0 <= i < |recs| && derive(recs[i]) == Failure(DeriveAll(derive, recs).error)
        && forall j :: 0 <= j < i ==> derive(recs[j]).Success?
  {
    if |recs| > 0 {
      DeriveAllMeans(derive, recs[1..]);
      var r := DeriveAll(derive, recs);
      if derive(recs[0]).Success? && DeriveAll(derive, recs[1..]).Failure? {
        var k :| 0 <= k < |recs[1..]| && derive(recs[1..][k]) == Failure(DeriveAll(derive, recs[1..]).error)
          && forall j :: 0 <= j < k ==> derive(recs[1..][j]).Success?;
        assert derive(recs[k + 1]) == Failure(r.error);
      }
      if r.Success? {
        forall i | 0 <= i < |recs|
          ensures derive(recs[i]) == Success(r.value[i])
        {
          if i > 0 {
            assert recs[i] == recs[1..][i - 1];
          }
        }
      }
    }
  }

  function IncomeStatementsOf(ticker: string, offset: int, recs: seq<RawRecord>)
    : Result<seq<IS.IncomeStatement>, StatementError>
  {
    DeriveAll(rec => IS.DeriveIncomeStatement(ticker, offset, rec), recs)
  }

  function BalanceSheetsOf(ticker: string, offset: int, recs: seq<RawRecord>)
    : Result<seq<BS.BalanceSheet>, StatementError>
  {
    DeriveAll(rec => BS.DeriveBalanceSheet(ticker, offset, rec), recs)
  }

  // ---------------------------------------------------------------------
  // The flat report lists.

  /** The rows of a list of statements, one statement after another. */
  function Concat(xss: seq<seq<StatementRow>>): (rows: seq<StatementRow>) {
    if |xss| == 0 then [] else xss[0] + Concat(xss[1..])
  }

  /** A row is in the concatenation exactly when it is in one of the parts. */
  lemma {:induction false} ConcatMember(xss: seq<seq<StatementRow>>, x: StatementRow)
    ensures x in Concat(xss) <==> exists i :: 0 <= i < |xss| && x in xss[i]
  {
    if |xss| > 0 {
      ConcatMember(xss[1..], x);
      if x in Concat(xss[1..]) {
        var i :| 0 <= i < |xss[1..]| && x in xss[1..][i];
        assert x in xss[i + 1];
      }
      if exists i :: 0 <= i < |xss| && x in xss[i] {
        var i :| 0 <= i < |xss| && x in xss[i];
        if i > 0 {
          assert xss[1..][i - 1] == xss[i];
        }
      }
    }
  }

  /** Parts of one width `n` concatenate to `n` rows per part. */
  lemma {:induction false} ConcatLength(xss: seq<seq<StatementRow>>, n: nat)
    requires forall i :: 0 <= i < |xss| ==> |xss[i]| == n
    ensures |Concat(xss)| == n * |xss|
  {
    if |xss| > 0 {
      ConcatLength(xss[1..], n);
    }
  }

  /** With parts of one width `n`, row `k` of part `i` sits at position
      `n * i + k` of the concatenation. */
  lemma {:induction false} ConcatIndex(xss: seq<seq<StatementRow>>, n: nat, i: nat, k: nat)
    requires forall j :: 0 <= j < |xss| ==> |xss[j]| == n
    requires i < |xss| && k < n
    ensures n * i + k < |Concat(xss)| && Concat(xss)[n * i + k] == xss[i][k]
  {
    if i > 0 {
      ConcatIndex(xss[1..], n, i - 1, k);
      assert n * i + k == n + (n * (i - 1) + k);
    }
  }

  /** The report rows of income statements, eight per statement, in order. */
  lemma IncomeRowsConcat(ss: seq<IS.IncomeStatement>)
    ensures var rows := Concat(seq(|ss|, i requires 0 <= i < |ss| => IS.IncomeRows(ss[i])));
      && |rows| == 8 * |ss|
      && forall i, k :: 0 <= i < |ss| && 0 <= k < 8 ==> rows[8 * i + k] == IS.IncomeRows(ss[i])[k]
  {
    var parts := seq(|ss|, i requires 0 <= i < |ss| => IS.IncomeRows(ss[i]));
    ConcatLength(parts, 8);
    forall i, k | 0 <= i < |ss| && 0 <= k < 8
      ensures Concat(parts)[8 * i + k] == IS.IncomeRows(ss[i])[k]
    {
      ConcatIndex(parts, 8, i, k);
    }
  }

  /** The report rows of balance sheets, fifteen per sheet, in order. */
  lemma BalanceRowsConcat(q: seq<BS.BalanceSheet>)
    ensures var rows := Concat(seq(|q|, i requires 0 <= i < |q| => BS.BalanceRows(q[i])));
      && |rows| == 15 * |q|
      && forall i, k :: 0 <= i < |q| && 0 <= k < 15 ==> rows[15 * i + k] == BS.BalanceRows(q[i])[k]
  {
    var parts := seq(|q|, i requires 0 <= i < |q| => BS.BalanceRows(q[i]));
    ConcatLength(parts, 15);
    forall i, k | 0 <= i < |q| && 0 <= k < 15
      ensures Concat(parts)[15 * i + k] == BS.BalanceRows(q[i])[k]
    {
      ConcatIndex(parts, 15, i, k);
    }
  }

  /** The report rows of every income statement of the file, in file order. */
  function IncomeDataList(ticker: string, offset: int, recs: seq<RawRecord>): (r: Result<seq<StatementRow>, StatementError>)
    ensures r.Success? <==> IncomeStatementsOf(ticker, offset, recs).Success?
    ensures r.Success? ==>
      var ss := IncomeStatementsOf(ticker, offset, recs).value;
      && |r.value| == 8 * |ss|
      && forall i, k :: 0 <= i < |ss| && 0 <= k < 8 ==> r.value[8 * i + k] == IS.IncomeRows(ss[i])[k]
  {
    var ss :- IncomeStatementsOf(ticker, offset, recs);
    IncomeRowsConcat(ss);
    Success(Concat(seq(|ss|, i requires 0 <= i < |ss| => IS.IncomeRows(ss[i]))))
  }

  /** Every income statement derived from the file names the company and
      sits in the fiscal period its date falls in. */
  lemma IncomeStatementsNamed(ticker: string, offset: int, recs: seq<RawRecord>)
    requires IncomeStatementsOf(ticker, offset, recs).Success?
    ensures forall s :: s in IncomeStatementsOf(ticker, offset, recs).value ==>
      && s.ticker == ticker
      && AdjustedQuarterAndYear(s.statementDate, offset) == Success(FiscalPeriod(s.quarter, s.year))
  {
    var ss := IncomeStatementsOf(ticker, offset, recs).value;
    DeriveAllMeans(rec => IS.DeriveIncomeStatement(ticker, offset, rec), recs);
    forall s | s in ss
      ensures s.ticker == ticker
      ensures AdjustedQuarterAndYear(s.statementDate, offset) == Success(FiscalPeriod(s.quarter, s.year))
    {
      var k :| 0 <= k < |ss| && ss[k] == s;
      assert IS.DeriveIncomeStatement(ticker, offset, recs[k]) == Success(s);
    }
  }

  /** Eight rows per record, each naming the company. */
  lemma IncomeDataListRows(ticker: string, offset: int, recs: seq<RawRecord>)
    requires IncomeDataList(ticker, offset, recs).Success?
    ensures |IncomeDataList(ticker, offset, recs).value| == 8 * |recs|
    ensures forall x :: x in IncomeDataList(ticker, offset, recs).value ==> x.company == ticker
  {
    var ss := IncomeStatementsOf(ticker, offset, recs).value;
    var parts := seq(|ss|, i requires 0 <= i < |ss| => IS.IncomeRows(ss[i]));
    ConcatLength(parts, 8);
    IncomeStatementsNamed(ticker, offset, recs);
    forall x | x in Concat(parts)
      ensures x.company == ticker
    {
      ConcatMember(parts, x);
      var i :| 0 <= i < |parts| && x in parts[i];
      assert ss[i] in ss;
    }
  }

  /** The fourth-quarter sheets of a list, in list order. */
  function FourthQuarters(bs: seq<BS.BalanceSheet>): (q: seq<BS.BalanceSheet>)
    ensures forall b :: b in q <==> b in bs && b.quarter == 4
  {
    if |bs| == 0 then []
    else (if bs[0].quarter == 4 then [bs[0]] else []) + FourthQuarters(bs[1..])
  }

  /** The report rows of the fourth-quarter balance sheets of the file. Every
      sheet must still derive, and balance, for the list to be produced. */
  function BalanceDataList(ticker: string, offset: int, recs: seq<RawRecord>): (r: Result<seq<StatementRow>, StatementError>)
    ensures r.Success? <==> BalanceSheetsOf(ticker, offset, recs).Success?
    ensures r.Success? ==>
      var q := FourthQuarters(BalanceSheetsOf(ticker, offset, recs).value);
      && |r.value| == 15 * |q|
      && forall i, k :: 0 <= i < |q| && 0 <= k < 15 ==> r.value[15 * i + k] == BS.BalanceRows(q[i])[k]
  {
    var bs :- BalanceSheetsOf(ticker, offset, recs);
    var q := FourthQuarters(bs);
    BalanceRowsConcat(q);
    Success(Concat(seq(|q|, i requires 0 <= i < |q| => BS.BalanceRows(q[i]))))
  }

  /** Every balance sheet derived from the file names the company. */
  lemma BalanceSheetsNamed(ticker: string, offset: int, recs: seq<RawRecord>)
    requires BalanceSheetsOf(ticker, offset, recs).Success?
    ensures forall b :: b in BalanceSheetsOf(ticker, offset, recs).value ==> b.ticker == ticker
  {
    var bs := BalanceSheetsOf(ticker, offset, recs).value;
    DeriveAllMeans(rec => BS.DeriveBalanceSheet(ticker, offset, rec), recs);
    forall b | b in bs
      ensures b.ticker == ticker
    {
      var k :| 0 <= k < |bs| && bs[k] == b;
      assert BS.DeriveBalanceSheet(ticker, offset, recs[k]) == Success(b);
    }
  }

  /** A row of a sheet's report carries the sheet's ticker and quarter. */
  lemma SheetRowsLabelled(b: BS.BalanceSheet, x: StatementRow)
    requires x in BS.BalanceRows(b)
    ensures x.company == b.ticker && x.quarter == b.quarter
  {
    var rows := BS.BalanceRows(b);
    var k :| 0 <= k < |rows| && rows[k] == x;
  }

  /** Only fourth-quarter sheets are reported, each row naming the company. */
  lemma BalanceDataListRows(ticker: string, offset: int, recs: seq<RawRecord>)
    requires BalanceDataList(ticker, offset, recs).Success?
    ensures forall x :: x in BalanceDataList(ticker, offset, recs).value ==> x.quarter == 4 && x.company == ticker
  {
    var bs := BalanceSheetsOf(ticker, offset, recs).value;
    var q := FourthQuarters(bs);
    var parts := seq(|q|, i requires 0 <= i < |q| => BS.BalanceRows(q[i]));
    BalanceSheetsNamed(ticker, offset, recs);
    forall x | x in Concat(parts)
      ensures x.quarter == 4 && x.company == ticker
    {
      ConcatMember(parts, x);
      var i :| 0 <= i < |parts| && x in parts[i];
      assert q[i] in q;
      SheetRowsLabelled(q[i], x);
    }
  }

  /** Fifteen rows per fourth-quarter sheet. */
  lemma BalanceDataListLength(ticker: string, offset: int, recs: seq<RawRecord>)
    requires BalanceDataList(ticker, offset, recs).Success?
    ensures |BalanceDataList(ticker, offset, recs).value|
         == 15 * |FourthQuarters(BalanceSheetsOf(ticker, offset, recs).value)|
  {
    var q := FourthQuarters(BalanceSheetsOf(ticker, offset, recs).value);
    ConcatLength(seq(|q|, i requires 0 <= i < |q| => BS.BalanceRows(q[i])), 15);
  }

  // ---------------------------------------------------------------------
  // Grouping the income statements by fiscal year.

  /** No year is listed twice. */
  predicate Distinct(ys: seq<int>) {
    forall i, j :: 0 <= i < j < |ys| ==> ys[i] != ys[j]
  }

  /** An insertion-ordered dictionary from each fiscal year to the income
      statements of that year. */
  datatype IncomeGroups = IncomeGroups(years: seq<int>, groups: map<int, seq<IS.IncomeStatement>>)

  /** The statements of year `y`, in list order. */
  function OfYear(ss: seq<IS.IncomeStatement>, y: int): (g: seq<IS.IncomeStatement>)
    ensures forall s :: s in g <==> s in ss && s.year == y
  {
    if |ss| == 0 then []
    else (if ss[0].year == y then [ss[0]] else []) + OfYear(ss[1..], y)
  }

  /** Appending a statement extends its own year's list and no other. */
  lemma {:induction false} OfYearAppend(ss: seq<IS.IncomeStatement>, s: IS.IncomeStatement, y: int)
    ensures OfYear(ss + [s], y) == OfYear(ss, y) + (if s.year == y then [s] else [])
  {
    if |ss| > 0 {
      assert (ss + [s])[1..] == ss[1..] + [s];
      OfYearAppend(ss[1..], s, y);
    } else {
      assert (ss + [s])[1..] == [];
    }
  }

  /** Groups the statements by year, one statement at a time: a year seen for
      the first time opens a new group at the end, a year seen before gets
      the statement appended to its group. */
  function GroupByYear(ss: seq<IS.IncomeStatement>): IncomeGroups {
    if |ss| == 0 then IncomeGroups([], map[])
    else
      var g := GroupByYear(ss[..|ss| - 1]);
      var s := ss[|ss| - 1];
      if s.year !in g.groups then IncomeGroups(g.years + [s.year], g.groups[s.year := [s]])
      else IncomeGroups(g.years, g.groups[s.year := g.groups[s.year] + [s]])
  }

  /** The position of the first statement of year `y` in the list, or the
      list's length when no statement has that year. */
  function FirstOfYear(ss: seq<IS.IncomeStatement>, y: int): (p: nat)
    ensures p <= |ss|
    ensures p < |ss| ==> ss[p].year == y
    ensures forall q :: 0 <= q < p ==> ss[q].year != y
  {
    if |ss| == 0 then 0
    else if ss[0].year == y then 0
    else
      var p := FirstOfYear(ss[1..], y);
      assert forall q :: 1 <= q < 1 + p ==> ss[q] == ss[1..][q - 1];
      1 + p
  }

  /** `ys` lists years in the order their first statements appear in `ss`. */
  predicate InFirstAppearanceOrder(ss: seq<IS.IncomeStatement>, ys: seq<int>) {
    forall i, j :: 0 <= i < j < |ys| ==> FirstOfYear(ss, ys[i]) < FirstOfYear(ss, ys[j])
  }

  /** Appending a statement moves no year's first position; a year with no
      statement yet first appears at the appended one. */
  lemma {:induction false} FirstOfYearAppend(ss: seq<IS.IncomeStatement>, s: IS.IncomeStatement, y: int)
    ensures FirstOfYear(ss + [s], y)
         == if FirstOfYear(ss, y) < |ss| then FirstOfYear(ss, y)
            else if s.year == y then |ss| else |ss| + 1
  {
    if |ss| > 0 {
      assert (ss + [s])[1..] == ss[1..] + [s];
      FirstOfYearAppend(ss[1..], s, y);
    } else {
      assert (ss + [s])[1..] == [];
    }
  }

  /** The years of the grouping are listed once each, in the order their
      first statements appear in the list, and are exactly the years with a
      group. */
  lemma GroupYears(ss: seq<IS.IncomeStatement>)
    ensures var g := GroupByYear(ss);
      && Distinct(g.years)
      && (forall y :: y in g.years <==> y in g.groups)
      && (forall y :: y in g.years <==> FirstOfYear(ss, y) < |ss|)
      && InFirstAppearanceOrder(ss, g.years)
  {
    GroupKeys(ss);
    GroupOrder(ss);
  }

  /** The years of the grouping are listed once each and are exactly the
      years with a group. */
  lemma {:induction false} GroupKeys(ss: seq<IS.IncomeStatement>)
    ensures var g := GroupByYear(ss);
      && Distinct(g.years)
      && (forall y :: y in g.years <==> y in g.groups)
  {
    if |ss| > 0 {
      GroupKeys(ss[..|ss| - 1]);
    }
  }

  /** The years of the grouping are the years of some statement, in the
      order of their first statements. */
  lemma {:induction false} GroupOrder(ss: seq<IS.IncomeStatement>)
    ensures var g := GroupByYear(ss);
      && (forall y :: y in g.years <==> FirstOfYear(ss, y) < |ss|)
      && InFirstAppearanceOrder(ss, g.years)
  {
    if |ss| > 0 {
      var init := ss[..|ss| - 1];
      var s := ss[|ss| - 1];
      GroupOrder(init);
      GroupKeys(init);
      assert ss == init + [s];
      forall y
        ensures FirstOfYear(ss, y)
             == if FirstOfYear(init, y) < |init| then FirstOfYear(init, y)
                else if s.year == y then |init| else |init| + 1
      {
        FirstOfYearAppend(init, s, y);
      }
      var g := GroupByYear(init);
      if s.year !in g.groups {
        assert GroupByYear(ss).years == g.years + [s.year];
      } else {
        assert GroupByYear(ss).years == g.years;
      }
    }
  }

  /** Every statement lands in the group of its year, and each group lists
      exactly the statements of its year in input order; a year has a group
      exactly when some statement has that year. */
  lemma {:induction false} GroupContents(ss: seq<IS.IncomeStatement>, y: int)
    ensures y in GroupByYear(ss).groups <==> |OfYear(ss, y)| > 0
    ensures y in GroupByYear(ss).groups ==> GroupByYear(ss).groups[y] == OfYear(ss, y)
  {
    if |ss| > 0 {
      var init := ss[..|ss| - 1];
      var s := ss[|ss| - 1];
      GroupContents(init, y);
      assert ss == init + [s];
      OfYearAppend(init, s, y);
    }
  }

  // ---------------------------------------------------------------------
  // The year-end balance sheets.

  /** An insertion-ordered dictionary from fiscal year to that year's
      year-end balance sheet. */
  datatype YearEnds = YearEnds(years: seq<int>, sheets: map<int, BS.BalanceSheet>)

  predicate IsYearEnd(b: BS.BalanceSheet, y: int) {
    b.quarter == 4 && b.year == y
  }

  /** The first fourth-quarter sheet of year `y` in the list, if any. */
  function FirstYearEnd(bs: seq<BS.BalanceSheet>, y: int): Option<BS.BalanceSheet> {
    if |bs| == 0 then None
    else if IsYearEnd(bs[0], y) then Some(bs[0])
    else FirstYearEnd(bs[1..], y)
  }

  /** The first year end is a fourth-quarter sheet of that year that no
      earlier sheet of the list matches; there is none only when no sheet of
      the list is one. */
  lemma {:induction false} FirstYearEndMeans(bs: seq<BS.BalanceSheet>, y: int)
    ensures FirstYearEnd(bs, y).Some? ==>
      exists i :: 0 <= i < |bs| && bs[i] == FirstYearEnd(bs, y).value && IsYearEnd(bs[i], y)
        && forall j :: 0 <= j < i ==> !IsYearEnd(bs[j], y)
    ensures FirstYearEnd(bs, y).None? <==> forall i :: 0 <= i < |bs| ==> !IsYearEnd(bs[i], y)
  {
    if |bs| > 0 {
      FirstYearEndMeans(bs[1..], y);
      if !IsYearEnd(bs[0], y) {
        if FirstYearEnd(bs[1..], y).Some? {
          var i :| 0 <= i < |bs[1..]| && bs[1..][i] == FirstYearEnd(bs[1..], y).value && IsYearEnd(bs[1..][i], y)
            && forall j :: 0 <= j < i ==> !IsYearEnd(bs[1..][j], y);
          assert bs[i + 1] == bs[1..][i];
          assert forall j :: 1 <= j < i + 1 ==> bs[j] == bs[1..][j - 1];
        } else {
          assert forall i :: 1 <= i < |bs| ==> bs[i] == bs[1..][i - 1];
        }
      }
    }
  }

  /** A sheet appended to the list only becomes the year end of a year that
      has none yet. */
  lemma {:induction false} FirstYearEndAppend(bs: seq<BS.BalanceSheet>, b: BS.BalanceSheet, y: int)
    ensures FirstYearEnd(bs + [b], y)
         == if FirstYearEnd(bs, y).Some? then FirstYearEnd(bs, y)
            else if IsYearEnd(b, y) then Some(b) else None
  {
    if |bs| > 0 {
      assert (bs + [b])[1..] == bs[1..] + [b];
      FirstYearEndAppend(bs[1..], b, y);
    } else {
      assert (bs + [b])[1..] == [];
    }
  }

  /** Keeps, one sheet at a time, a fourth-quarter sheet whose year has no
      year end yet; later sheets of the same year are passed over. */
  function SelectYearEnds(bs: seq<BS.BalanceSheet>): YearEnds {
    if |bs| == 0 then YearEnds([], map[])
    else
      var e := SelectYearEnds(bs[..|bs| - 1]);
      var b := bs[|bs| - 1];
      if b.quarter == 4 && b.year !in e.sheets then YearEnds(e.years + [b.year], e.sheets[b.year := b])
      else e
  }

  /** The position of the first fourth-quarter sheet of year `y` in the
      list, or the list's length when there is none. */
  function FirstYearEndAt(bs: seq<BS.BalanceSheet>, y: int): (p: nat)
    ensures p <= |bs|
    ensures p < |bs| ==> IsYearEnd(bs[p], y)
    ensures forall q :: 0 <= q < p ==> !IsYearEnd(bs[q], y)
  {
    if |bs| == 0 then 0
    else if IsYearEnd(bs[0], y) then 0
    else
      var p := FirstYearEndAt(bs[1..], y);
      assert forall q :: 1 <= q < 1 + p ==> bs[q] == bs[1..][q - 1];
      1 + p
  }

  /** Appending a sheet moves no year end's first position; a year with no
      year end yet first has one at the appended sheet when it is one. */
  lemma {:induction false} FirstYearEndAtAppend(bs: seq<BS.BalanceSheet>, b: BS.BalanceSheet, y: int)
    ensures FirstYearEndAt(bs + [b], y)
         == if FirstYearEndAt(bs, y) < |bs| then FirstYearEndAt(bs, y)
            else if IsYearEnd(b, y) then |bs| else |bs| + 1
  {
    if |bs| > 0 {
      assert (bs + [b])[1..] == bs[1..] + [b];
      FirstYearEndAtAppend(bs[1..], b, y);
    } else {
      assert (bs + [b])[1..] == [];
    }
  }

  /** The years of the selection are listed once each, in the order their
      first year ends appear in the list, and are exactly the years with a
      year end. */
  lemma YearEndYears(bs: seq<BS.BalanceSheet>)
    ensures var e := SelectYearEnds(bs);
      && Distinct(e.years)
      && (forall y :: y in e.years <==> y in e.sheets)
      && (forall y :: y in e.years <==> FirstYearEndAt(bs, y) < |bs|)
      && (forall i, j :: 0 <= i < j < |e.years| ==> FirstYearEndAt(bs, e.years[i]) < FirstYearEndAt(bs, e.years[j]))
  {
    YearEndKeys(bs);
    YearEndOrder(bs);
  }

  /** The years of the selection are listed once each and are exactly the
      years with a year end. */
  lemma {:induction false} YearEndKeys(bs: seq<BS.BalanceSheet>)
    ensures var e := SelectYearEnds(bs);
      && Distinct(e.years)
      && (forall y :: y in e.years <==> y in e.sheets)
  {
    if |bs| > 0 {
      YearEndKeys(bs[..|bs| - 1]);
    }
  }

  /** The years of the selection are the years of some fourth-quarter sheet,
      in the order of their first ones. */
  lemma {:induction false} YearEndOrder(bs: seq<BS.BalanceSheet>)
    ensures var e := SelectYearEnds(bs);
      && (forall y :: y in e.years <==> FirstYearEndAt(bs, y) < |bs|)
      && (forall i, j :: 0 <= i < j < |e.years| ==> FirstYearEndAt(bs, e.years[i]) < FirstYearEndAt(bs, e.years[j]))
  {
    if |bs| > 0 {
      var init := bs[..|bs| - 1];
      var b := bs[|bs| - 1];
      YearEndOrder(init);
      YearEndKeys(init);
      assert bs == init + [b];
      forall y
        ensures FirstYearEndAt(bs, y)
             == if FirstYearEndAt(init, y) < |init| then FirstYearEndAt(init, y)
                else if IsYearEnd(b, y) then |init| else |init| + 1
      {
        FirstYearEndAtAppend(init, b, y);
      }
      var e := SelectYearEnds(init);
      if b.quarter == 4 && b.year !in e.sheets {
        assert SelectYearEnds(bs) == YearEnds(e.years + [b.year], e.sheets[b.year := b]);
      } else {
        assert SelectYearEnds(bs) == e;
      }
    }
  }

  /** The selection keeps, for each year, the first fourth-quarter sheet of
      that year, and has a year exactly when such a sheet exists. */
  lemma {:induction false} YearEndContents(bs: seq<BS.BalanceSheet>, y: int)
    ensures y in SelectYearEnds(bs).sheets <==> FirstYearEnd(bs, y).Some?
    ensures y in SelectYearEnds(bs).sheets ==> SelectYearEnds(bs).sheets[y] == FirstYearEnd(bs, y).value
  {
    if |bs| > 0 {
      var init := bs[..|bs| - 1];
      var b := bs[|bs| - 1];
      YearEndContents(init, y);
      assert bs == init + [b];
      FirstYearEndAppend(init, b, y);
    }
  }

  // ---------------------------------------------------------------------
  // Pairing the years.

  /** The list without its last element; an empty list stays empty. */
  function DropLast(ys: seq<int>): (r: seq<int>)
    ensures |ys| > 0 ==> r + [ys[|ys| - 1]] == ys
    ensures |ys| == 0 ==> r == []
  {
    if |ys| == 0 then [] else ys[..|ys| - 1]
  }

  /** Dropping the last year of the selection drops the year whose first
      year end comes last in the list; every other selected year is kept. */
  lemma DroppedYearEndIsLast(bs: seq<BS.BalanceSheet>)
    requires |SelectYearEnds(bs).years| > 0
    ensures var ys := SelectYearEnds(bs).years;
      var last := ys[|ys| - 1];
      && last !in DropLast(ys)
      && forall y :: y in DropLast(ys) <==>
           y in SelectYearEnds(bs).sheets && FirstYearEndAt(bs, y) < FirstYearEndAt(bs, last)
  {
    var ys := SelectYearEnds(bs).years;
    var last := ys[|ys| - 1];
    YearEndYears(bs);
    forall y
      ensures y in DropLast(ys) <==> y in ys && FirstYearEndAt(bs, y) < FirstYearEndAt(bs, last)
    {
      if y in ys && FirstYearEndAt(bs, y) < FirstYearEndAt(bs, last) {
        var i :| 0 <= i < |ys| && ys[i] == y;
        assert i != |ys| - 1;
        assert ys[..|ys| - 1][i] == y;
      }
      if y in DropLast(ys) {
        var i :| 0 <= i < |ys| - 1 && ys[..|ys| - 1][i] == y;
        assert ys[i] == y;
      }
    }
  }

  /** The earliest year a consolidated statement is considered for. */
  const FirstCandidateYear := 2001

  /** The earliest year a consolidated statement is built for. */
  const FirstBuiltYear := 2002

  /** The income years, in their order, that also have a year-end sheet
      listed in `endYears` and come after 2000. */
  function Candidates(incomeYears: seq<int>, endYears: seq<int>): (ys: seq<int>)
    ensures forall y :: y in ys <==> y in incomeYears && y in endYears && y >= FirstCandidateYear
    ensures |ys| <= |incomeYears|
  {
    if |incomeYears| == 0 then []
    else
      var y := incomeYears[0];
      (if y in endYears && y >= FirstCandidateYear then [y] else []) + Candidates(incomeYears[1..], endYears)
  }

  /** Filtering keeps distinct years distinct. */
  lemma {:induction false} CandidatesDistinct(incomeYears: seq<int>, endYears: seq<int>)
    requires Distinct(incomeYears)
    ensures Distinct(Candidates(incomeYears, endYears))
  {
    if |incomeYears| > 0 {
      CandidatesDistinct(incomeYears[1..], endYears);
      assert incomeYears[0] !in incomeYears[1..] by {
        forall k | 0 <= k < |incomeYears[1..]| ensures incomeYears[1..][k] != incomeYears[0] {
          assert incomeYears[1..][k] == incomeYears[k + 1];
        }
      }
    }
  }

  /** Filtering keeps years in the order of their first statements. */
  lemma {:induction false} CandidatesInOrder(ss: seq<IS.IncomeStatement>, incomeYears: seq<int>, endYears: seq<int>)
    requires InFirstAppearanceOrder(ss, incomeYears)
    ensures InFirstAppearanceOrder(ss, Candidates(incomeYears, endYears))
  {
    if |incomeYears| > 0 {
      var xs := incomeYears;
      forall i, j | 0 <= i < j < |xs[1..]|
        ensures FirstOfYear(ss, xs[1..][i]) < FirstOfYear(ss, xs[1..][j])
      {
        assert xs[1..][i] == xs[i + 1] && xs[1..][j] == xs[j + 1];
      }
      CandidatesInOrder(ss, xs[1..], endYears);
      var rest := Candidates(xs[1..], endYears);
      forall k | 0 <= k < |rest|
        ensures FirstOfYear(ss, xs[0]) < FirstOfYear(ss, rest[k])
      {
        assert rest[k] in xs[1..];
        var m :| 0 <= m < |xs[1..]| && xs[1..][m] == rest[k];
        assert xs[m + 1] == rest[k];
      }
    }
  }

  /** The years of a list, in list order, that are at least `bound`. */
  function AtLeast(ys: seq<int>, bound: int): (r: seq<int>)
    ensures forall y :: y in r <==> y in ys && y >= bound
  {
    if |ys| == 0 then []
    else (if ys[0] >= bound then [ys[0]] else []) + AtLeast(ys[1..], bound)
  }

  /** Filtering keeps distinct years distinct. */
  lemma {:induction false} AtLeastDistinct(ys: seq<int>, bound: int)
    requires Distinct(ys)
    ensures Distinct(AtLeast(ys, bound))
  {
    if |ys| > 0 {
      AtLeastDistinct(ys[1..], bound);
      assert ys[0] !in ys[1..] by {
        forall k | 0 <= k < |ys[1..]| ensures ys[1..][k] != ys[0] {
          assert ys[1..][k] == ys[k + 1];
        }
      }
    }
  }

  /** Filtering keeps years in the order of their first statements. */
  lemma {:induction false} AtLeastInOrder(ss: seq<IS.IncomeStatement>, ys: seq<int>, bound: int)
    requires InFirstAppearanceOrder(ss, ys)
    ensures InFirstAppearanceOrder(ss, AtLeast(ys, bound))
  {
    if |ys| > 0 {
      forall i, j | 0 <= i < j < |ys[1..]|
        ensures FirstOfYear(ss, ys[1..][i]) < FirstOfYear(ss, ys[1..][j])
      {
        assert ys[1..][i] == ys[i + 1] && ys[1..][j] == ys[j + 1];
      }
      AtLeastInOrder(ss, ys[1..], bound);
      var rest := AtLeast(ys[1..], bound);
      forall k | 0 <= k < |rest|
        ensures FirstOfYear(ss, ys[0]) < FirstOfYear(ss, rest[k])
      {
        assert rest[k] in ys[1..];
        var m :| 0 <= m < |ys[1..]| && ys[1..][m] == rest[k];
        assert ys[m + 1] == rest[k];
      }
    }
  }

  /** The annual income statement of a group of quarters: the statement
      derived again from the group's combined record. */
  function AnnualStatement(ticker: string, offset: int, group: seq<IS.IncomeStatement>)
    : (r: Result<IS.IncomeStatement, StatementError>)
    ensures r.Success? <==> |group| > 0 && -4 <= offset <= 1
    ensures |group| == 0 ==> r == Failure(EmptySequence)
    ensures r.Success? ==> r.value.ticker == ticker && r.value.statementDate in IS.Dates(group)
    ensures r.Success? ==> forall i :: 0 <= i < |group| ==> NotAfter(group[i].statementDate, r.value.statementDate)
    ensures r.Success? ==> IS.Articulates(r.value) && IS.ReadsTotals(group, r.value)
  {
    var rec :- IS.CombineIncomeStatements(group);
    if -4 <= offset <= 1 then
      IS.AnnualisedReads(ticker, offset, group);
      IS.DeriveIncomeStatement(ticker, offset, rec)
    else
      IS.DeriveIncomeStatement(ticker, offset, rec)
  }

  /** `c` carries the annual statement of its year's group. */
  predicate IncomeFrom(ticker: string, offset: int, groups: map<int, seq<IS.IncomeStatement>>, c: CS.ConsolidatedStatement) {
    && c.ticker == ticker
    && c.year in groups
    && AnnualStatement(ticker, offset, groups[c.year]) == Success(c.income)
  }

  /** `c` is priced at the close of its year-end sheet's date, and its
      ratios hold. */
  predicate PricedFrom(closes: map<Date, real>, c: CS.ConsolidatedStatement) {
    && c.balance.statementDate in closes
    && c.marketClose == closes[c.balance.statementDate]
    && CS.RatiosHold(c)
  }

  /** `c` pairs its year's year end with the year end before it. */
  predicate SheetsFrom(ends: map<int, BS.BalanceSheet>, c: CS.ConsolidatedStatement) {
    c.year in ends && c.year - 1 in ends && c.balance == ends[c.year] && c.prior == ends[c.year - 1]
  }

  /** The year-end sheet of a year and of the year before it. */
  datatype SheetPair = SheetPair(balance: BS.BalanceSheet, prior: BS.BalanceSheet)

  /** Looks up the year end of year `y`, then that of the year before; a
      missing one is refused with its year. */
  function SheetPairOf(y: int, ends: map<int, BS.BalanceSheet>): (r: Result<SheetPair, StatementError>)
    ensures r.Success? <==> y in ends && y - 1 in ends
    ensures r.Success? ==> r.value.balance == ends[y] && r.value.prior == ends[y - 1]
    ensures y !in ends ==> r == Failure(MissingYear(y))
    ensures y in ends && y - 1 !in ends ==> r == Failure(MissingYear(y - 1))
  {
    if y !in ends then Failure(MissingYear(y))
    else if y - 1 !in ends then Failure(MissingYear(y - 1))
    else Success(SheetPair(ends[y], ends[y - 1]))
  }

  /** The consolidated statement of year `y`: the income statement derived
      again from the combined record of the year's group, the year's
      year-end sheet and the prior year's, and the closing prices. A year
      with no prior year end is refused. */
  function BuildYear(ticker: string, offset: int, y: int, groups: map<int, seq<IS.IncomeStatement>>,
                     ends: map<int, BS.BalanceSheet>, closes: map<Date, real>)
    : (r: Result<CS.ConsolidatedStatement, StatementError>)
    ensures r.Success? ==> r.value.year == y && IncomeFrom(ticker, offset, groups, r.value) && SheetsFrom(ends, r.value)
    ensures r.Success? ==> PricedFrom(closes, r.value)
    ensures y !in groups ==> r == Failure(MissingYear(y))
    ensures y in groups && |groups[y]| == 0 ==> r == Failure(EmptySequence)
    ensures y in groups && |groups[y]| > 0 && -4 <= offset <= 1 && y in ends && y - 1 !in ends ==>
      r == Failure(MissingYear(y - 1))
  {
    if y !in groups then Failure(MissingYear(y))
    else
      var income :- AnnualStatement(ticker, offset, groups[y]);
      ConsolidateYear(ticker, y, income, ends, closes)
  }

  /** Consolidates the annual income statement of year `y` with the year-end
      sheets of `y` and of the year before it. */
  function ConsolidateYear(ticker: string, y: int, income: IS.IncomeStatement,
                           ends: map<int, BS.BalanceSheet>, closes: map<Date, real>)
    : (r: Result<CS.ConsolidatedStatement, StatementError>)
    ensures r.Success? ==>
      && r.value.ticker == ticker && r.value.year == y && r.value.income == income
      && SheetsFrom(ends, r.value) && PricedFrom(closes, r.value)
    ensures y in ends && y - 1 !in ends ==> r == Failure(MissingYear(y - 1))
    ensures y !in ends ==> r == Failure(MissingYear(y))
  {
    var sheets :- SheetPairOf(y, ends);
    CS.Consolidate(ticker, y, income, sheets.balance, sheets.prior, closes)
  }

  /** The years of a list of consolidated statements, in list order. */
  function YearsOf(cs: seq<CS.ConsolidatedStatement>): (ys: seq<int>)
    ensures |ys| == |cs|
  {
    if |cs| == 0 then [] else [cs[0].year] + YearsOf(cs[1..])
  }

  /** Builds the statement of every year from 2002 on, in year-list order,
      stopping at the first year that cannot be built. */
  function BuildAll(ticker: string, offset: int, years: seq<int>, groups: map<int, seq<IS.IncomeStatement>>,
                    ends: map<int, BS.BalanceSheet>, closes: map<Date, real>)
    : (r: Result<seq<CS.ConsolidatedStatement>, StatementError>)
  {
    if |years| == 0 then Success([])
    else
      var y := years[0];
      if y >= FirstBuiltYear then
        var c :- BuildYear(ticker, offset, y, groups, ends, closes);
        var rest :- BuildAll(ticker, offset, years[1..], groups, ends, closes);
        Success([c] + rest)
      else
        BuildAll(ticker, offset, years[1..], groups, ends, closes)
  }

  /** The statements built are those of the years from 2002 on, in
      year-list order. */
  lemma {:induction false} BuildAllYears(ticker: string, offset: int, years: seq<int>, groups: map<int, seq<IS.IncomeStatement>>,
                                         ends: map<int, BS.BalanceSheet>, closes: map<Date, real>)
    requires BuildAll(ticker, offset, years, groups, ends, closes).Success?
    ensures YearsOf(BuildAll(ticker, offset, years, groups, ends, closes).value) == AtLeast(years, FirstBuiltYear)
  {
    if |years| > 0 {
      BuildAllYears(ticker, offset, years[1..], groups, ends, closes);
      var y := years[0];
      if y >= FirstBuiltYear {
        var c := BuildYear(ticker, offset, y, groups, ends, closes).value;
        var rest := BuildAll(ticker, offset, years[1..], groups, ends, closes).value;
        assert ([c] + rest)[1..] == rest;
      }
    }
  }

  /** Every statement built is for a year from 2002 on, and is made of
      that year's group and year ends. */
  lemma {:induction false} BuildAllEntries(ticker: string, offset: int, years: seq<int>, groups: map<int, seq<IS.IncomeStatement>>,
                                           ends: map<int, BS.BalanceSheet>, closes: map<Date, real>)
    requires BuildAll(ticker, offset, years, groups, ends, closes).Success?
    ensures var cs := BuildAll(ticker, offset, years, groups, ends, closes).value;
      forall c :: c in cs ==>
        c.year >= FirstBuiltYear && IncomeFrom(ticker, offset, groups, c) && SheetsFrom(ends, c)
        && PricedFrom(closes, c)
  {
    if |years| > 0 {
      BuildAllEntries(ticker, offset, years[1..], groups, ends, closes);
    }
  }

  /** A year from 2002 on with no year end for the year before makes the
      whole construction fail. */
  lemma {:induction false} BuildAllNeedsPriorYear(ticker: string, offset: int, years: seq<int>, groups: map<int, seq<IS.IncomeStatement>>,
                                                  ends: map<int, BS.BalanceSheet>, closes: map<Date, real>, y: int)
    requires y in years && y >= FirstBuiltYear && y - 1 !in ends
    ensures BuildAll(ticker, offset, years, groups, ends, closes).Failure?
  {
    if years[0] != y {
      BuildAllNeedsPriorYear(ticker, offset, years[1..], groups, ends, closes, y);
    }
  }

  // ---------------------------------------------------------------------
  // The statement groups of a company.

  /** The consolidated statements of a company, from its income-statement
      and balance-sheet records and the closing prices by date: the years
      that have income statements, a year-end sheet other than the last one
      selected, and come after 2000 are candidates, and those from 2002 on
      are built. */
  function StatementGroups(ticker: string, offset: int, incomeRecs: seq<RawRecord>, balanceRecs: seq<RawRecord>,
                           closes: map<Date, real>)
    : Result<seq<CS.ConsolidatedStatement>, StatementError>
  {
    var ss :- IncomeStatementsOf(ticker, offset, incomeRecs);
    var bs :- BalanceSheetsOf(ticker, offset, balanceRecs);
    var g := GroupByYear(ss);
    var e := SelectYearEnds(bs);
    BuildAll(ticker, offset, Candidates(g.years, DropLast(e.years)), g.groups, e.sheets, closes)
  }

  /** The combined statement of a group of one year is dated within that
      year again: its date is one of the group's dates. */
  lemma AnnualYear(ticker: string, offset: int, group: seq<IS.IncomeStatement>, y: int)
    requires |group| > 0
    requires forall s :: s in group ==>
      s.year == y && AdjustedQuarterAndYear(s.statementDate, offset) == Success(FiscalPeriod(s.quarter, s.year))
    requires AnnualStatement(ticker, offset, group).Success?
    ensures AnnualStatement(ticker, offset, group).value.year == y
  {
    var date := IS.CombineIncomeStatements(group).value.statementDate.value;
    var ds := IS.Dates(group);
    var k :| 0 <= k < |ds| && ds[k] == date;
    assert group[k] in group;
  }

  /** Each consolidated statement of a company belongs to a year from 2002
      on that has income statements; it pairs the first fourth-quarter sheet
      of its year with that of the year before, and its income statement is
      the combined statement of its year's group, dated in that year. */
  lemma StatementGroupsEntries(ticker: string, offset: int, incomeRecs: seq<RawRecord>, balanceRecs: seq<RawRecord>,
                               closes: map<Date, real>)
    requires StatementGroups(ticker, offset, incomeRecs, balanceRecs, closes).Success?
    ensures var ss := IncomeStatementsOf(ticker, offset, incomeRecs).value;
      var bs := BalanceSheetsOf(ticker, offset, balanceRecs).value;
      forall c :: c in StatementGroups(ticker, offset, incomeRecs, balanceRecs, closes).value ==>
        c.year >= FirstBuiltYear && BuiltSheets(bs, c) && BuiltIncome(ticker, offset, ss, c)
        && PricedFrom(closes, c)
  {
    var ss := IncomeStatementsOf(ticker, offset, incomeRecs).value;
    var bs := BalanceSheetsOf(ticker, offset, balanceRecs).value;
    var g := GroupByYear(ss);
    var e := SelectYearEnds(bs);
    var years := Candidates(g.years, DropLast(e.years));
    var cs := StatementGroups(ticker, offset, incomeRecs, balanceRecs, closes).value;
    assert cs == BuildAll(ticker, offset, years, g.groups, e.sheets, closes).value;
    BuildAllEntries(ticker, offset, years, g.groups, e.sheets, closes);
    IncomeStatementsNamed(ticker, offset, incomeRecs);
    GroupByYearGroups(ss);
    SelectYearEndsOf(bs);
    forall c | c in cs
      ensures BuiltSheets(bs, c) && BuiltIncome(ticker, offset, ss, c)
    {
      BuiltYearSheets(bs, e.sheets, c);
      BuiltYearIncome(ticker, offset, ss, g.groups, c);
    }
  }

  /** The year-end sheets of a consolidated statement built from the
      balance sheets `bs`: the first fourth-quarter sheets of its year and of
      the year before. */
  predicate BuiltSheets(bs: seq<BS.BalanceSheet>, c: CS.ConsolidatedStatement) {
    && FirstYearEnd(bs, c.year) == Some(c.balance)
    && FirstYearEnd(bs, c.year - 1) == Some(c.prior)
  }

  /** The income statement of a consolidated statement built from the income
      statements `ss`: the annual statement of the statements of its year,
      dated in that year. */
  predicate BuiltIncome(ticker: string, offset: int, ss: seq<IS.IncomeStatement>, c: CS.ConsolidatedStatement) {
    && c.ticker == ticker
    && |OfYear(ss, c.year)| > 0
    && AnnualStatement(ticker, offset, OfYear(ss, c.year)) == Success(c.income)
    && c.income.year == c.year
  }

  /** `groups` maps each of its years to the statements of that year in `ss`. */
  predicate GroupsOf(ss: seq<IS.IncomeStatement>, groups: map<int, seq<IS.IncomeStatement>>) {
    forall y :: y in groups ==> groups[y] == OfYear(ss, y)
  }

  /** `ends` maps each of its years to the first fourth-quarter sheet of
      that year in `bs`. */
  predicate YearEndsOf(bs: seq<BS.BalanceSheet>, ends: map<int, BS.BalanceSheet>) {
    forall y :: y in ends ==> FirstYearEnd(bs, y) == Some(ends[y])
  }

  lemma GroupByYearGroups(ss: seq<IS.IncomeStatement>)
    ensures GroupsOf(ss, GroupByYear(ss).groups)
  {
    forall y | y in GroupByYear(ss).groups
      ensures GroupByYear(ss).groups[y] == OfYear(ss, y)
    {
      GroupContents(ss, y);
    }
  }

  lemma SelectYearEndsOf(bs: seq<BS.BalanceSheet>)
    ensures YearEndsOf(bs, SelectYearEnds(bs).sheets)
  {
    forall y | y in SelectYearEnds(bs).sheets
      ensures FirstYearEnd(bs, y) == Some(SelectYearEnds(bs).sheets[y])
    {
      YearEndContents(bs, y);
    }
  }

  /** A statement pairing year ends from such a map pairs the first
      fourth-quarter sheets of its year and the year before. */
  lemma BuiltYearSheets(bs: seq<BS.BalanceSheet>, ends: map<int, BS.BalanceSheet>, c: CS.ConsolidatedStatement)
    requires YearEndsOf(bs, ends)
    requires SheetsFrom(ends, c)
    ensures BuiltSheets(bs, c)
  {
  }

  /** A statement carrying the annual statement of its year's group from
      such groups carries one dated in that year. */
  lemma BuiltYearIncome(ticker: string, offset: int, ss: seq<IS.IncomeStatement>,
                        groups: map<int, seq<IS.IncomeStatement>>, c: CS.ConsolidatedStatement)
    requires forall s :: s in ss ==>
      AdjustedQuarterAndYear(s.statementDate, offset) == Success(FiscalPeriod(s.quarter, s.year))
    requires GroupsOf(ss, groups)
    requires IncomeFrom(ticker, offset, groups, c)
    ensures BuiltIncome(ticker, offset, ss, c)
  {
    AnnualYear(ticker, offset, OfYear(ss, c.year), c.year);
  }

  /** The years of the consolidated statements are listed once each, and are
      exactly the years from 2002 on that have income statements and a
      selected year end other than the last one. */
  lemma StatementGroupsYears(ticker: string, offset: int, incomeRecs: seq<RawRecord>, balanceRecs: seq<RawRecord>,
                             closes: map<Date, real>)
    requires StatementGroups(ticker, offset, incomeRecs, balanceRecs, closes).Success?
    ensures var ss := IncomeStatementsOf(ticker, offset, incomeRecs).value;
      var bs := BalanceSheetsOf(ticker, offset, balanceRecs).value;
      var ys := YearsOf(StatementGroups(ticker, offset, incomeRecs, balanceRecs, closes).value);
      && Distinct(ys)
      && InFirstAppearanceOrder(ss, ys)
      && forall y :: y in ys <==>
           y >= FirstBuiltYear && |OfYear(ss, y)| > 0 && y in DropLast(SelectYearEnds(bs).years)
  {
    var ss := IncomeStatementsOf(ticker, offset, incomeRecs).value;
    var bs := BalanceSheetsOf(ticker, offset, balanceRecs).value;
    var g := GroupByYear(ss);
    var e := SelectYearEnds(bs);
    var years := Candidates(g.years, DropLast(e.years));
    BuildAllYears(ticker, offset, years, g.groups, e.sheets, closes);
    GroupYears(ss);
    CandidatesDistinct(g.years, DropLast(e.years));
    AtLeastDistinct(years, FirstBuiltYear);
    CandidatesInOrder(ss, g.years, DropLast(e.years));
    AtLeastInOrder(ss, years, FirstBuiltYear);
    forall y
      ensures y in g.years <==> |OfYear(ss, y)| > 0
    {
      GroupContents(ss, y);
    }
  }

  /** A year from 2002 on that has income statements and a selected year end
      other than the last one is a candidate; without a fourth-quarter sheet
      for the year before, that year has no selected year end. */
  lemma CandidateWithoutPriorYear(ss: seq<IS.IncomeStatement>, bs: seq<BS.BalanceSheet>, y: int)
    requires y >= FirstBuiltYear && |OfYear(ss, y)| > 0 && y in DropLast(SelectYearEnds(bs).years)
    requires FirstYearEnd(bs, y - 1).None?
    ensures y in Candidates(GroupByYear(ss).years, DropLast(SelectYearEnds(bs).years))
    ensures y - 1 !in SelectYearEnds(bs).sheets
  {
    GroupContents(ss, y);
    GroupYears(ss);
    YearEndContents(bs, y - 1);
  }

  /** A year from 2002 on that has income statements and a selected year end
      other than the last one, but no fourth-quarter sheet for the year
      before, makes the whole construction fail. */
  lemma StatementGroupsNeedPriorYear(ticker: string, offset: int, incomeRecs: seq<RawRecord>, balanceRecs: seq<RawRecord>,
                                     closes: map<Date, real>, y: int)
    requires IncomeStatementsOf(ticker, offset, incomeRecs).Success?
    requires BalanceSheetsOf(ticker, offset, balanceRecs).Success?
    requires var ss := IncomeStatementsOf(ticker, offset, incomeRecs).value;
      var bs := BalanceSheetsOf(ticker, offset, balanceRecs).value;
      && y >= FirstBuiltYear && |OfYear(ss, y)| > 0 && y in DropLast(SelectYearEnds(bs).years)
      && FirstYearEnd(bs, y - 1).None?
    ensures StatementGroups(ticker, offset, incomeRecs, balanceRecs, closes).Failure?
  {
    var ss := IncomeStatementsOf(ticker, offset, incomeRecs).value;
    var bs := BalanceSheetsOf(ticker, offset, balanceRecs).value;
    var g := GroupByYear(ss);
    var e := SelectYearEnds(bs);
    var years := Candidates(g.years, DropLast(e.years));
    CandidateWithoutPriorYear(ss, bs, y);
    BuildAllNeedsPriorYear(ticker, offset, years, g.groups, e.sheets, closes, y);
    assert StatementGroups(ticker, offset, incomeRecs, balanceRecs, closes)
        == BuildAll(ticker, offset, years, g.groups, e.sheets, closes);
  }
}
