/** What the generated workbook computes once a spreadsheet evaluates it:
    the accounting identities of the `Calc` lines, the projection rules and
    the drivers carried flat, stated over the values of the two sheets. */
module ModelProperties {
  import opened Wrappers
  import opened Cells
  import opened Layout
  import opened LayoutFacts
  import N = Normalise
  import T = Timeline
  import D = Drivers

  /** The zero-based sheet row of a line (`row_map[label] - 1`). */
  function LineRow(l: Line): nat {
    RowRange(l);
    Row(l) - 1
  }

  /** The statement a line belongs to. */
  function SectionOf(l: Line): Section {
    if LineRow(l) < ItemRow(IncomeStatement, |IsItems|) then IncomeStatement else BalanceSheet
  }

  /** The position of a line in its statement's item list: its row's
      distance from the statement's first item row. */
  function IndexOf(l: Line): nat {
    RowRange(l);
    LineRow(l) - ItemRow(SectionOf(l), 0)
  }

  /** Each line is the item at its index, written on its own row. */
  lemma LineItem(l: Line)
    ensures IndexOf(l) < |Items(SectionOf(l))| && Items(SectionOf(l))[IndexOf(l)].line == l
    ensures ItemRow(SectionOf(l), IndexOf(l)) == LineRow(l)
  {
    RowRange(l);
    RowInverse(l);
  }

  /** The item (line and key) of a line: the entry of its statement's item
      list at the line's index. */
  function ItemOf(l: Line): (it: Item)
    ensures it.line == l
  {
    LineItem(l);
    Items(SectionOf(l))[IndexOf(l)]
  }

  /** Where a line's historical values come from. */
  function KeyOf(l: Line): Key {
    ItemOf(l).key
  }

  /** Grid g holds in column col of line l's row what the layout puts there. */
  ghost predicate HoldsLine(g: Grid, data: seq<N.Period>, l: Line, col: nat) {
    var cell := ItemCell(SectionOf(l), ItemOf(l), data, LineRow(l), col, FullRowMap);
    ((LineRow(l), col) in g <==> cell.Some?) && (cell.Some? ==> g[(LineRow(l), col)] == cell.value)
  }

  /** Grid g holds in column col of driver row k what the Assumptions sheet
      puts there: the name, the historical ratio, or the link to the last
      historical column. */
  ghost predicate HoldsDriver(g: Grid, data: seq<N.Period>, k: nat, col: nat)
    requires k < |D.DriverRows|
  {
    var row := DriverFirstRow + k;
    (row, col) in g &&
    g[(row, col)] ==
      if col == 0 then Text(D.Name(D.DriverRows[k]))
      else if col <= |data| then Number(D.DriverValue(D.DriverRows[k], data, col - 1))
      else Formula(Ref(Assumptions, |data|, row + 1))
  }

  /** A workbook laid out for `data`: every line and driver cell in the
      period columns is as the generator writes it. */
  ghost predicate Laid(wb: Workbook, data: seq<N.Period>) {
    |data| > 0 &&
    (forall l, col :: 0 <= col <= |data| + T.ProjCols ==> HoldsLine(wb.model, data, l, col)) &&
    (forall k, col :: 0 <= k < |D.DriverRows| && 0 <= col <= |data| + T.ProjCols ==> HoldsDriver(wb.assumptions, data, k, col))
  }

  /** The workbook the generator builds is laid out for its data. */
  lemma BuiltIsLaid(data: seq<N.Period>, name: string)
    requires |data| > 0
    ensures Laid(BuiltWorkbook(data, name), data)
  {
    var wb := BuiltWorkbook(data, name);
    forall l, col | 0 <= col <= |data| + T.ProjCols ensures HoldsLine(wb.model, data, l, col) {
      LineItem(l);
      ModelItemCell(data, name, SectionOf(l), IndexOf(l), col);
    }
    forall k, col | 0 <= k < |D.DriverRows| && 0 <= col <= |data| + T.ProjCols
      ensures HoldsDriver(wb.assumptions, data, k, col)
    {
      AssumptionsSheetAt(data, name, DriverFirstRow + k, col);
    }
  }

  /** The value a spreadsheet shows for line l in column col of the Model sheet. */
  function Value(wb: Workbook, l: Line, col: nat): Option<real> {
    EvalCell(wb, Model, LineRow(l), col)
  }

  /** The value of driver row k (zero-based among the six) in column col of
      the Assumptions sheet. */
  function DriverCell(wb: Workbook, k: nat, col: nat): Option<real> {
    EvalCell(wb, Assumptions, DriverFirstRow + k, col)
  }

  // The formula of each Calc line, in every period column.

  /** Gross Profit = Revenue - COGS. */
  lemma GrossProfitRule(wb: Workbook, data: seq<N.Period>, col: nat)
    requires Laid(wb, data) && 1 <= col <= |data| + T.ProjCols
    ensures Value(wb, GrossProfit, col) == SubValues(Value(wb, Revenue, col), Value(wb, Cogs, col))
  {
    assert HoldsLine(wb.model, data, GrossProfit, col);
    EvalFormula(wb, Model, 6, col, Minus(Ref(Model, col, 5), Ref(Model, col, 6)));
    EvalRef(wb, Model, col, 5, Model, 6, col);
    EvalRef(wb, Model, col, 6, Model, 6, col);
  }

  /** EBITDA = Gross Profit - SG&A. */
  lemma EbitdaRule(wb: Workbook, data: seq<N.Period>, col: nat)
    requires Laid(wb, data) && 1 <= col <= |data| + T.ProjCols
    ensures Value(wb, Ebitda, col) == SubValues(Value(wb, GrossProfit, col), Value(wb, Sga, col))
  {
    assert HoldsLine(wb.model, data, Ebitda, col);
    EvalFormula(wb, Model, 8, col, Minus(Ref(Model, col, 7), Ref(Model, col, 8)));
    EvalRef(wb, Model, col, 7, Model, 8, col);
    EvalRef(wb, Model, col, 8, Model, 8, col);
  }

  /** EBIT = EBITDA - D&A. */
  lemma EbitRule(wb: Workbook, data: seq<N.Period>, col: nat)
    requires Laid(wb, data) && 1 <= col <= |data| + T.ProjCols
    ensures Value(wb, Ebit, col) == SubValues(Value(wb, Ebitda, col), Value(wb, Da, col))
  {
    assert HoldsLine(wb.model, data, Ebit, col);
    EvalFormula(wb, Model, 10, col, Minus(Ref(Model, col, 9), Ref(Model, col, 10)));
    EvalRef(wb, Model, col, 9, Model, 10, col);
    EvalRef(wb, Model, col, 10, Model, 10, col);
  }

  /** EBT = EBIT - Interest Expense. */
  lemma EbtRule(wb: Workbook, data: seq<N.Period>, col: nat)
    requires Laid(wb, data) && 1 <= col <= |data| + T.ProjCols
    ensures Value(wb, Ebt, col) == SubValues(Value(wb, Ebit, col), Value(wb, InterestExpense, col))
  {
    assert HoldsLine(wb.model, data, Ebt, col);
    EvalFormula(wb, Model, 12, col, Minus(Ref(Model, col, 11), Ref(Model, col, 12)));
    EvalRef(wb, Model, col, 11, Model, 12, col);
    EvalRef(wb, Model, col, 12, Model, 12, col);
  }

  /** Total Assets = SUM over the rows from Cash to Other Assets, which are
      exactly Cash, Accounts Receivable, PP&E and Other Assets. */
  lemma TotalAssetsRule(wb: Workbook, data: seq<N.Period>, col: nat)
    requires Laid(wb, data) && 1 <= col <= |data| + T.ProjCols
    ensures Value(wb, TotalAssets, col) ==
      AddValues(Value(wb, Cash, col), AddValues(Value(wb, AccountsReceivable, col),
        AddValues(Value(wb, Ppe, col), AddValues(Value(wb, OtherAssets, col), Some(0.0)))))
  {
    assert HoldsLine(wb.model, data, TotalAssets, col);
    EvalFormula(wb, Model, 22, col, SumCol(Model, col, 19, 22));
    EvalSumStep(wb, Model, col, 18, 21, Model, 22, col);
    EvalSumStep(wb, Model, col, 19, 21, Model, 22, col);
    EvalSumStep(wb, Model, col, 20, 21, Model, 22, col);
    EvalSumStep(wb, Model, col, 21, 21, Model, 22, col);
  }

  /** Total Liabilities = SUM over the rows from Accounts Payable to Other
      Liabilities, which are exactly AP, Debt and Other Liabilities. */
  lemma TotalLiabilitiesRule(wb: Workbook, data: seq<N.Period>, col: nat)
    requires Laid(wb, data) && 1 <= col <= |data| + T.ProjCols
    ensures Value(wb, TotalLiabilities, col) ==
      AddValues(Value(wb, AccountsPayable, col), AddValues(Value(wb, Debt, col),
        AddValues(Value(wb, OtherLiabilities, col), Some(0.0))))
  {
    assert HoldsLine(wb.model, data, TotalLiabilities, col);
    EvalFormula(wb, Model, 26, col, SumCol(Model, col, 24, 26));
    EvalSumStep(wb, Model, col, 23, 25, Model, 26, col);
    EvalSumStep(wb, Model, col, 24, 25, Model, 26, col);
    EvalSumStep(wb, Model, col, 25, 25, Model, 26, col);
  }

  /** Total Equity = Share Capital + Retained Earnings. */
  lemma TotalEquityRule(wb: Workbook, data: seq<N.Period>, col: nat)
    requires Laid(wb, data) && 1 <= col <= |data| + T.ProjCols
    ensures Value(wb, TotalEquity, col) == AddValues(Value(wb, ShareCapital, col), Value(wb, RetainedEarnings, col))
  {
    assert HoldsLine(wb.model, data, TotalEquity, col);
    EvalFormula(wb, Model, 29, col, Plus(Ref(Model, col, 28), Ref(Model, col, 29)));
    EvalRef(wb, Model, col, 28, Model, 29, col);
    EvalRef(wb, Model, col, 29, Model, 29, col);
  }

  /** Check = Total Assets - (Total Liabilities + Total Equity). */
  lemma CheckRule(wb: Workbook, data: seq<N.Period>, col: nat)
    requires Laid(wb, data) && 1 <= col <= |data| + T.ProjCols
    ensures Value(wb, Check, col) ==
      SubValues(Value(wb, TotalAssets, col), AddValues(Value(wb, TotalLiabilities, col), Value(wb, TotalEquity, col)))
  {
    assert HoldsLine(wb.model, data, Check, col);
    EvalFormula(wb, Model, 30, col, Minus(Ref(Model, col, 23), Plus(Ref(Model, col, 27), Ref(Model, col, 30))));
    EvalRef(wb, Model, col, 23, Model, 30, col);
    EvalRef(wb, Model, col, 27, Model, 30, col);
    EvalRef(wb, Model, col, 30, Model, 30, col);
  }

  // Historical columns.

  /** A line read from the table shows, in historical column c + 1, the
      table's value for period c. */
  lemma HistoricalInput(wb: Workbook, data: seq<N.Period>, l: Line, c: nat)
    requires Laid(wb, data) && c < |data| && ItemOf(l).key.Input?
    ensures Value(wb, l, c + 1) == Some(data[c].Get(ItemOf(l).key.field))
  {
    assert HoldsLine(wb.model, data, l, c + 1);
  }

  /** Driver row k shows, in historical column c + 1, the ratio of period c. */
  lemma HistoricalDriver(wb: Workbook, data: seq<N.Period>, k: nat, c: nat)
    requires Laid(wb, data) && k < |D.DriverRows| && c < |data|
    ensures DriverCell(wb, k, c + 1) == Some(D.DriverValue(D.DriverRows[k], data, c))
  {
    assert HoldsDriver(wb.assumptions, data, k, c + 1);
  }

  /** The income-statement subtotals of historical column c + 1 are the
      period's own figures netted down from revenue. */
  lemma HistoricalEarnings(wb: Workbook, data: seq<N.Period>, c: nat)
    requires Laid(wb, data) && c < |data|
    ensures Value(wb, GrossProfit, c + 1) == Some(data[c].revenue - data[c].cogs)
    ensures Value(wb, Ebitda, c + 1) == Some(data[c].revenue - data[c].cogs - data[c].sga)
    ensures Value(wb, Ebit, c + 1) == Some(data[c].revenue - data[c].cogs - data[c].sga - data[c].da)
    ensures Value(wb, Ebt, c + 1) ==
      Some(data[c].revenue - data[c].cogs - data[c].sga - data[c].da - data[c].interest)
  {
    HistoricalIncomeInputs(wb, data, c);
    GrossProfitRule(wb, data, c + 1);
    EbitdaRule(wb, data, c + 1);
    EbitRule(wb, data, c + 1);
    EbtRule(wb, data, c + 1);
  }

  /** The reported income-statement figures of period c in column c + 1. */
  lemma HistoricalIncomeInputs(wb: Workbook, data: seq<N.Period>, c: nat)
    requires Laid(wb, data) && c < |data|
    ensures Value(wb, Revenue, c + 1) == Some(data[c].revenue) && Value(wb, Cogs, c + 1) == Some(data[c].cogs)
    ensures Value(wb, Sga, c + 1) == Some(data[c].sga) && Value(wb, Da, c + 1) == Some(data[c].da)
    ensures Value(wb, InterestExpense, c + 1) == Some(data[c].interest)
  {
    HistoricalInput(wb, data, Revenue, c);
    HistoricalInput(wb, data, Cogs, c);
    HistoricalInput(wb, data, Sga, c);
    HistoricalInput(wb, data, Da, c);
    HistoricalInput(wb, data, InterestExpense, c);
  }

  /** Total Assets in historical column c + 1 adds up the period's Cash,
      Accounts Receivable, PP&E and Other Assets. */
  lemma HistoricalAssets(wb: Workbook, data: seq<N.Period>, c: nat)
    requires Laid(wb, data) && c < |data|
    ensures Value(wb, TotalAssets, c + 1) == Some(data[c].cash + data[c].ar + data[c].ppe + data[c].otherAssets)
  {
    HistoricalInput(wb, data, Cash, c);
    HistoricalInput(wb, data, AccountsReceivable, c);
    HistoricalInput(wb, data, Ppe, c);
    HistoricalInput(wb, data, OtherAssets, c);
    TotalAssetsRule(wb, data, c + 1);
  }

  /** Total Liabilities in historical column c + 1 adds up the period's
      Accounts Payable, Debt and Other Liabilities. */
  lemma HistoricalLiabilities(wb: Workbook, data: seq<N.Period>, c: nat)
    requires Laid(wb, data) && c < |data|
    ensures Value(wb, TotalLiabilities, c + 1) == Some(data[c].ap + data[c].debt + data[c].otherLiab)
  {
    HistoricalInput(wb, data, AccountsPayable, c);
    HistoricalInput(wb, data, Debt, c);
    HistoricalInput(wb, data, OtherLiabilities, c);
    TotalLiabilitiesRule(wb, data, c + 1);
  }

  /** Total Equity in historical column c + 1 is Share Capital plus Retained
      Earnings (not the reported equity), and the Check is what is left of
      the assets after liabilities and that equity. */
  lemma HistoricalCheck(wb: Workbook, data: seq<N.Period>, c: nat)
    requires Laid(wb, data) && c < |data|
    ensures Value(wb, TotalEquity, c + 1) == Some(data[c].shareCapital + data[c].retainedEarnings)
    ensures Value(wb, Check, c + 1) == Some(Imbalance(data[c], data[c].retainedEarnings))
  {
    var d := data[c];
    HistoricalAssets(wb, data, c);
    HistoricalLiabilities(wb, data, c);
    HistoricalInput(wb, data, ShareCapital, c);
    HistoricalInput(wb, data, RetainedEarnings, c);
    TotalEquityRule(wb, data, c + 1);
    CheckRule(wb, data, c + 1);
  }

  /** What the Check row shows for a balance sheet with period p's assets,
      liabilities and share capital and retained earnings re. */
  function Imbalance(p: N.Period, re: real): real {
    (p.cash + p.ar + p.ppe + p.otherAssets) - ((p.ap + p.debt + p.otherLiab) + (p.shareCapital + re))
  }

  // Projected columns.

  /** Each projected column of a driver row links to the last historical
      column, so it shows the last historical ratio. */
  lemma ProjectedDriver(wb: Workbook, data: seq<N.Period>, k: nat, col: nat)
    requires Laid(wb, data) && k < |D.DriverRows| && |data| < col <= |data| + T.ProjCols
    ensures DriverCell(wb, k, col) == Some(D.DriverValue(D.DriverRows[k], data, |data| - 1))
  {
    var n := |data|;
    var row := DriverFirstRow + k;
    assert HoldsDriver(wb.assumptions, data, k, col);
    assert HoldsDriver(wb.assumptions, data, k, n);
    EvalFormula(wb, Assumptions, row, col, Ref(Assumptions, n, row + 1));
    EvalRef(wb, Assumptions, n, row + 1, Assumptions, row, col);
  }

  /** Projected Revenue = previous Revenue * (1 + the growth driver of the
      same column, Assumptions row 4). */
  lemma RevenueRule(wb: Workbook, data: seq<N.Period>, col: nat)
    requires Laid(wb, data) && |data| < col <= |data| + T.ProjCols
    ensures Value(wb, Revenue, col) == MulValues(Value(wb, Revenue, col - 1), AddValues(Some(1.0), DriverCell(wb, 0, col)))
  {
    assert HoldsLine(wb.model, data, Revenue, col);
    var growth := Plus(Const(1.0), Ref(Assumptions, col, 4));
    EvalFormula(wb, Model, 4, col, Times(Ref(Model, col - 1, 5), growth));
    EvalRef(wb, Model, col - 1, 5, Model, 4, col);
    EvalRef(wb, Assumptions, col, 4, Model, 4, col);
    assert EvalExpr(wb, growth, Model, 4, col) == AddValues(Some(1.0), DriverCell(wb, 0, col));
  }

  /** Projected COGS = Revenue * the COGS driver (Assumptions row 5). */
  lemma CogsRule(wb: Workbook, data: seq<N.Period>, col: nat)
    requires Laid(wb, data) && |data| < col <= |data| + T.ProjCols
    ensures Value(wb, Cogs, col) == MulValues(Value(wb, Revenue, col), DriverCell(wb, 1, col))
  {
    assert HoldsLine(wb.model, data, Cogs, col);
    EvalFormula(wb, Model, 5, col, Times(Ref(Model, col, 5), Ref(Assumptions, col, 5)));
    EvalRef(wb, Model, col, 5, Model, 5, col);
    EvalRef(wb, Assumptions, col, 5, Model, 5, col);
  }

  /** Projected SG&A = Revenue * the SG&A driver (Assumptions row 6). */
  lemma SgaRule(wb: Workbook, data: seq<N.Period>, col: nat)
    requires Laid(wb, data) && |data| < col <= |data| + T.ProjCols
    ensures Value(wb, Sga, col) == MulValues(Value(wb, Revenue, col), DriverCell(wb, 2, col))
  {
    assert HoldsLine(wb.model, data, Sga, col);
    EvalFormula(wb, Model, 7, col, Times(Ref(Model, col, 5), Ref(Assumptions, col, 6)));
    EvalRef(wb, Model, col, 5, Model, 7, col);
    EvalRef(wb, Assumptions, col, 6, Model, 7, col);
  }

  /** Projected Interest Expense is the number 0. */
  lemma InterestRule(wb: Workbook, data: seq<N.Period>, col: nat)
    requires Laid(wb, data) && |data| < col <= |data| + T.ProjCols
    ensures Value(wb, InterestExpense, col) == Some(0.0)
  {
    assert HoldsLine(wb.model, data, InterestExpense, col);
  }

  /** Projected Tax = EBT * the tax-rate driver (Assumptions row 7). */
  lemma TaxRule(wb: Workbook, data: seq<N.Period>, col: nat)
    requires Laid(wb, data) && |data| < col <= |data| + T.ProjCols
    ensures Value(wb, Tax, col) == MulValues(Value(wb, Ebt, col), DriverCell(wb, 3, col))
  {
    assert HoldsLine(wb.model, data, Tax, col);
    EvalFormula(wb, Model, 13, col, Times(Ref(Model, col, 13), Ref(Assumptions, col, 7)));
    EvalRef(wb, Model, col, 13, Model, 13, col);
    EvalRef(wb, Assumptions, col, 7, Model, 13, col);
  }

  /** Projected Net Income = EBT - Tax. */
  lemma NetIncomeRule(wb: Workbook, data: seq<N.Period>, col: nat)
    requires Laid(wb, data) && |data| < col <= |data| + T.ProjCols
    ensures Value(wb, NetIncome, col) == SubValues(Value(wb, Ebt, col), Value(wb, Tax, col))
  {
    assert HoldsLine(wb.model, data, NetIncome, col);
    EvalFormula(wb, Model, 14, col, Minus(Ref(Model, col, 13), Ref(Model, col, 14)));
    EvalRef(wb, Model, col, 13, Model, 14, col);
    EvalRef(wb, Model, col, 14, Model, 14, col);
  }

  /** The lines whose projected cells copy the previous column: D&A, and
      every balance-sheet input except Retained Earnings (Cash included). */
  const CopiedLines: set<Line> :=
    {Da, Cash, AccountsReceivable, Ppe, OtherAssets, AccountsPayable, Debt, OtherLiabilities, ShareCapital}

  /** A copied line shows in each projected column what it shows in the
      previous one. */
  lemma CopyRule(wb: Workbook, data: seq<N.Period>, l: Line, col: nat)
    requires Laid(wb, data) && l in CopiedLines && |data| < col <= |data| + T.ProjCols
    ensures Value(wb, l, col) == Value(wb, l, col - 1)
  {
    assert HoldsLine(wb.model, data, l, col);
    CopiedCell(l, col, LineRow(l) + 1);
    EvalCopy(wb, LineRow(l), col);
  }

  /** The projected cell of a copied line refers to its own row in the
      previous column. */
  lemma CopiedCell(l: Line, col: nat, own: nat)
    requires l in CopiedLines && col >= 1
    ensures ProjCell(SectionOf(l), ItemOf(l), col, own, FullRowMap) == Some(Formula(Ref(Model, col - 1, own)))
  {
    match l
    case Da =>
    case Cash =>
    case AccountsReceivable =>
    case Ppe =>
    case OtherAssets =>
    case AccountsPayable =>
    case Debt =>
    case OtherLiabilities =>
    case ShareCapital =>
  }

  /** A cell that refers to the same row of the previous column shows that
      cell's value. */
  lemma EvalCopy(wb: Workbook, row: nat, col: nat)
    requires col >= 1 && (row, col) in wb.model && wb.model[(row, col)] == Formula(Ref(Model, col - 1, row + 1))
    ensures EvalCell(wb, Model, row, col) == EvalCell(wb, Model, row, col - 1)
  {
    EvalFormula(wb, Model, row, col, Ref(Model, col - 1, row + 1));
    EvalRef(wb, Model, col - 1, row + 1, Model, row, col);
  }

  /** Projected Retained Earnings = previous Retained Earnings + the
      column's Net Income. */
  lemma RetainedEarningsRule(wb: Workbook, data: seq<N.Period>, col: nat)
    requires Laid(wb, data) && |data| < col <= |data| + T.ProjCols
    ensures Value(wb, RetainedEarnings, col) == AddValues(Value(wb, RetainedEarnings, col - 1), Value(wb, NetIncome, col))
  {
    assert HoldsLine(wb.model, data, RetainedEarnings, col);
    RollForward(wb, col);
  }

  /** The Retained Earnings formula in row terms. */
  lemma RollForward(wb: Workbook, col: nat)
    requires col >= 1 && (28, col) in wb.model && wb.model[(28, col)] == Formula(Plus(Ref(Model, col - 1, 29), Ref(Model, col, 15)))
    ensures EvalCell(wb, Model, 28, col) == AddValues(EvalCell(wb, Model, 28, col - 1), EvalCell(wb, Model, 14, col))
  {
    EvalFormula(wb, Model, 28, col, Plus(Ref(Model, col - 1, 29), Ref(Model, col, 15)));
    EvalRef(wb, Model, col - 1, 29, Model, 28, col);
    EvalRef(wb, Model, col, 15, Model, 28, col);
  }

  // The statements in closed form.

  function Pow(x: real, k: nat): real {
    if k == 0 then 1.0 else Pow(x, k - 1) * x
  }

  /** The last historical period. */
  function Last(data: seq<N.Period>): N.Period
    requires |data| > 0
  {
    data[|data| - 1]
  }

  /** Driver k's ratio in the last historical period, which every projected
      column uses. */
  function LastRatio(data: seq<N.Period>, k: nat): real
    requires |data| > 0 && k < |D.DriverRows|
  {
    D.DriverValue(D.DriverRows[k], data, |data| - 1)
  }

  /** Revenue of projected year j: the last revenue compounded j times at
      the last growth rate. */
  function ProjRevenue(data: seq<N.Period>, j: nat): real
    requires |data| > 0
  {
    Last(data).revenue * Pow(1.0 + LastRatio(data, 0), j)
  }

  /** COGS of projected year j: revenue at the last COGS ratio. */
  function ProjCogs(data: seq<N.Period>, j: nat): real
    requires |data| > 0
  {
    ProjRevenue(data, j) * LastRatio(data, 1)
  }

  /** SG&A of projected year j: revenue at the last SG&A ratio. */
  function ProjSga(data: seq<N.Period>, j: nat): real
    requires |data| > 0
  {
    ProjRevenue(data, j) * LastRatio(data, 2)
  }

  /** EBT of projected year j: revenue less COGS and SG&A at the last
      ratios, less the last D&A, with no interest. */
  function ProjEbt(data: seq<N.Period>, j: nat): real
    requires |data| > 0
  {
    ProjRevenue(data, j) * (1.0 - LastRatio(data, 1) - LastRatio(data, 2)) - Last(data).da
  }

  /** Tax of projected year j: EBT at the last tax rate. */
  function ProjTax(data: seq<N.Period>, j: nat): real
    requires |data| > 0
  {
    ProjEbt(data, j) * LastRatio(data, 3)
  }

  /** Net income of projected year j: EBT after tax at the last rate. */
  function ProjNetIncome(data: seq<N.Period>, j: nat): real
    requires |data| > 0
  {
    ProjEbt(data, j) * (1.0 - LastRatio(data, 3))
  }

  /** Retained earnings of projected year j: the last balance plus the net
      income of projected years 1 to j. */
  function ProjRetainedEarnings(data: seq<N.Period>, j: nat): real
    requires |data| > 0
  {
    if j == 0 then Last(data).retainedEarnings
    else ProjRetainedEarnings(data, j - 1) + ProjNetIncome(data, j)
  }

  /** One more year of growth. */
  lemma ProjRevenueStep(data: seq<N.Period>, j: nat)
    requires |data| > 0 && j >= 1
    ensures ProjRevenue(data, j - 1) * (1.0 + LastRatio(data, 0)) == ProjRevenue(data, j)
  {
    var x := 1.0 + LastRatio(data, 0);
    var r := Last(data).revenue;
    assert Pow(x, j) == Pow(x, j - 1) * x;
    assert r * (Pow(x, j - 1) * x) == (r * Pow(x, j - 1)) * x;
  }

  /** Projected revenue compounds: column n + j shows the last historical
      revenue times (1 + growth)^j. */
  lemma {:induction false} RevenueCompounds(wb: Workbook, data: seq<N.Period>, j: nat)
    requires Laid(wb, data) && j <= T.ProjCols
    ensures Value(wb, Revenue, |data| + j) == Some(ProjRevenue(data, j))
  {
    var n := |data|;
    if j == 0 {
      HistoricalInput(wb, data, Revenue, n - 1);
    } else {
      RevenueCompounds(wb, data, j - 1);
      RevenueRule(wb, data, n + j);
      ProjectedDriver(wb, data, 0, n + j);
      ProjRevenueStep(data, j);
      var g := LastRatio(data, 0);
      AddSome(Some(1.0), DriverCell(wb, 0, n + j), 1.0, g, 1.0 + g);
      MulSome(Value(wb, Revenue, n + j - 1), AddValues(Some(1.0), DriverCell(wb, 0, n + j)),
              ProjRevenue(data, j - 1), 1.0 + g, ProjRevenue(data, j));
    }
  }

  /** A copied line is held flat at its last historical value in every
      projected column. */
  lemma {:induction false} HeldFlat(wb: Workbook, data: seq<N.Period>, l: Line, j: nat)
    requires Laid(wb, data) && l in CopiedLines && j <= T.ProjCols
    ensures Value(wb, l, |data| + j) == Some(Last(data).Get(KeyOf(l).field))
  {
    var n := |data|;
    if j == 0 {
      HistoricalInput(wb, data, l, n - 1);
    } else {
      HeldFlat(wb, data, l, j - 1);
      CopyRule(wb, data, l, n + j);
    }
  }

  /** A product of two values that are present. The product is passed in
      as `p` so that callers can name it by its closed form. */
  lemma MulSome(a: Option<real>, b: Option<real>, x: real, y: real, p: real)
    requires a == Some(x) && b == Some(y) && p == x * y
    ensures MulValues(a, b) == Some(p)
  {
    assert MulValues(a, b).value == p;
  }

  /** A sum of two values that are present. */
  lemma AddSome(a: Option<real>, b: Option<real>, x: real, y: real, p: real)
    requires a == Some(x) && b == Some(y) && p == x + y
    ensures AddValues(a, b) == Some(p)
  {
    assert AddValues(a, b).value == p;
  }

  /** A difference of two values that are present. */
  lemma SubSome(a: Option<real>, b: Option<real>, x: real, y: real, p: real)
    requires a == Some(x) && b == Some(y) && p == x - y
    ensures SubValues(a, b) == Some(p)
  {
    assert SubValues(a, b).value == p;
  }

  /** Projected COGS is revenue at the last COGS ratio. */
  lemma ProjectedCogs(wb: Workbook, data: seq<N.Period>, j: nat)
    requires Laid(wb, data) && 1 <= j <= T.ProjCols
    ensures Value(wb, Cogs, |data| + j) == Some(ProjCogs(data, j))
  {
    var col := |data| + j;
    RevenueCompounds(wb, data, j);
    CogsRule(wb, data, col);
    ProjectedDriver(wb, data, 1, col);
    MulSome(Value(wb, Revenue, col), DriverCell(wb, 1, col), ProjRevenue(data, j), LastRatio(data, 1), ProjCogs(data, j));
  }

  /** Projected SG&A is revenue at the last SG&A ratio. */
  lemma ProjectedSga(wb: Workbook, data: seq<N.Period>, j: nat)
    requires Laid(wb, data) && 1 <= j <= T.ProjCols
    ensures Value(wb, Sga, |data| + j) == Some(ProjSga(data, j))
  {
    var col := |data| + j;
    RevenueCompounds(wb, data, j);
    SgaRule(wb, data, col);
    ProjectedDriver(wb, data, 2, col);
    MulSome(Value(wb, Revenue, col), DriverCell(wb, 2, col), ProjRevenue(data, j), LastRatio(data, 2), ProjSga(data, j));
  }

  /** Projected Gross Profit, EBITDA and EBIT: revenue less the projected
      COGS and SG&A, less the flat D&A. */
  lemma ProjectedOperating(wb: Workbook, data: seq<N.Period>, j: nat)
    requires Laid(wb, data) && 1 <= j <= T.ProjCols
    ensures Value(wb, GrossProfit, |data| + j) == Some(ProjRevenue(data, j) - ProjCogs(data, j))
    ensures Value(wb, Ebitda, |data| + j) == Some(ProjRevenue(data, j) - ProjCogs(data, j) - ProjSga(data, j))
    ensures Value(wb, Ebit, |data| + j) ==
      Some(ProjRevenue(data, j) - ProjCogs(data, j) - ProjSga(data, j) - Last(data).da)
  {
    var col := |data| + j;
    RevenueCompounds(wb, data, j);
    ProjectedCogs(wb, data, j);
    ProjectedSga(wb, data, j);
    HeldFlat(wb, data, Da, j);
    GrossProfitRule(wb, data, col);
    EbitdaRule(wb, data, col);
    EbitRule(wb, data, col);
  }

  /** Projected EBT: EBIT with no interest, which is revenue times one less
      the two cost ratios, less the flat D&A. */
  lemma ProjectedEbt(wb: Workbook, data: seq<N.Period>, j: nat)
    requires Laid(wb, data) && 1 <= j <= T.ProjCols
    ensures Value(wb, Ebt, |data| + j) == Some(ProjEbt(data, j))
  {
    var col := |data| + j;
    ProjectedOperating(wb, data, j);
    InterestRule(wb, data, col);
    EbtRule(wb, data, col);
    EbtAlgebra(data, j);
    SubSome(Value(wb, Ebit, col), Value(wb, InterestExpense, col),
            ProjRevenue(data, j) - ProjCogs(data, j) - ProjSga(data, j) - Last(data).da, 0.0, ProjEbt(data, j));
  }

  lemma EbtAlgebra(data: seq<N.Period>, j: nat)
    requires |data| > 0
    ensures ProjRevenue(data, j) - ProjCogs(data, j) - ProjSga(data, j) - Last(data).da - 0.0 == ProjEbt(data, j)
  {
    var rev, c, sg := ProjRevenue(data, j), LastRatio(data, 1), LastRatio(data, 2);
    assert rev - rev * c - rev * sg == rev * (1.0 - c - sg);
  }

  /** Projected tax is EBT at the last tax rate. */
  lemma ProjectedTax(wb: Workbook, data: seq<N.Period>, j: nat)
    requires Laid(wb, data) && 1 <= j <= T.ProjCols
    ensures Value(wb, Tax, |data| + j) == Some(ProjTax(data, j))
  {
    var col := |data| + j;
    ProjectedEbt(wb, data, j);
    ProjectedDriver(wb, data, 3, col);
    TaxRule(wb, data, col);
    MulSome(Value(wb, Ebt, col), DriverCell(wb, 3, col), ProjEbt(data, j), LastRatio(data, 3), ProjTax(data, j));
  }

  /** Projected net income is what is left of EBT after tax. */
  lemma ProjectedNetIncome(wb: Workbook, data: seq<N.Period>, j: nat)
    requires Laid(wb, data) && 1 <= j <= T.ProjCols
    ensures Value(wb, NetIncome, |data| + j) == Some(ProjNetIncome(data, j))
  {
    var col := |data| + j;
    ProjectedEbt(wb, data, j);
    ProjectedTax(wb, data, j);
    NetIncomeRule(wb, data, col);
    NetIncomeAlgebra(data, j);
    SubSome(Value(wb, Ebt, col), Value(wb, Tax, col), ProjEbt(data, j), ProjTax(data, j), ProjNetIncome(data, j));
  }

  lemma NetIncomeAlgebra(data: seq<N.Period>, j: nat)
    requires |data| > 0
    ensures ProjEbt(data, j) - ProjTax(data, j) == ProjNetIncome(data, j)
  {
    var ebt, t := ProjEbt(data, j), LastRatio(data, 3);
    assert ebt - ebt * t == ebt * (1.0 - t);
  }

  /** Retained Earnings roll forward: column n + j shows the last balance
      plus the projected net income of years 1 to j. */
  lemma {:induction false} RetainedEarningsRollForward(wb: Workbook, data: seq<N.Period>, j: nat)
    requires Laid(wb, data) && j <= T.ProjCols
    ensures Value(wb, RetainedEarnings, |data| + j) == Some(ProjRetainedEarnings(data, j))
  {
    var n := |data|;
    if j == 0 {
      HistoricalInput(wb, data, RetainedEarnings, n - 1);
    } else {
      RetainedEarningsRollForward(wb, data, j - 1);
      ProjectedNetIncome(wb, data, j);
      RetainedEarningsRule(wb, data, n + j);
    }
  }

  /** The four asset lines that make up Total Assets are held flat. */
  lemma FlatAssets(wb: Workbook, data: seq<N.Period>, j: nat)
    requires Laid(wb, data) && j <= T.ProjCols
    ensures Value(wb, Cash, |data| + j) == Some(Last(data).cash)
    ensures Value(wb, AccountsReceivable, |data| + j) == Some(Last(data).ar)
    ensures Value(wb, Ppe, |data| + j) == Some(Last(data).ppe)
    ensures Value(wb, OtherAssets, |data| + j) == Some(Last(data).otherAssets)
  {
    HeldFlat(wb, data, Cash, j);
    HeldFlat(wb, data, AccountsReceivable, j);
    HeldFlat(wb, data, Ppe, j);
    HeldFlat(wb, data, OtherAssets, j);
  }

  /** The three liability lines that make up Total Liabilities are held flat. */
  lemma FlatLiabilities(wb: Workbook, data: seq<N.Period>, j: nat)
    requires Laid(wb, data) && j <= T.ProjCols
    ensures Value(wb, AccountsPayable, |data| + j) == Some(Last(data).ap)
    ensures Value(wb, Debt, |data| + j) == Some(Last(data).debt)
    ensures Value(wb, OtherLiabilities, |data| + j) == Some(Last(data).otherLiab)
  {
    HeldFlat(wb, data, AccountsPayable, j);
    HeldFlat(wb, data, Debt, j);
    HeldFlat(wb, data, OtherLiabilities, j);
  }

  /** Total Assets is flat over the projection: its components are all
      copied forward from the last historical period. */
  lemma ProjectedAssets(wb: Workbook, data: seq<N.Period>, j: nat)
    requires Laid(wb, data) && 1 <= j <= T.ProjCols
    ensures Value(wb, TotalAssets, |data| + j) ==
      Some(Last(data).cash + Last(data).ar + Last(data).ppe + Last(data).otherAssets)
  {
    FlatAssets(wb, data, j);
    TotalAssetsRule(wb, data, |data| + j);
  }

  /** Total Liabilities is flat over the projection in the same way. */
  lemma ProjectedLiabilities(wb: Workbook, data: seq<N.Period>, j: nat)
    requires Laid(wb, data) && 1 <= j <= T.ProjCols
    ensures Value(wb, TotalLiabilities, |data| + j) ==
      Some(Last(data).ap + Last(data).debt + Last(data).otherLiab)
  {
    FlatLiabilities(wb, data, j);
    TotalLiabilitiesRule(wb, data, |data| + j);
  }

  /** Projected Total Equity is the flat Share Capital plus the rolled-forward
      Retained Earnings, and the Check is the last period's balance sheet
      measured against that equity. */
  lemma ProjectedCheck(wb: Workbook, data: seq<N.Period>, j: nat)
    requires Laid(wb, data) && 1 <= j <= T.ProjCols
    ensures Value(wb, TotalEquity, |data| + j) == Some(Last(data).shareCapital + ProjRetainedEarnings(data, j))
    ensures Value(wb, Check, |data| + j) == Some(Imbalance(Last(data), ProjRetainedEarnings(data, j)))
  {
    var col := |data| + j;
    ProjectedAssets(wb, data, j);
    ProjectedLiabilities(wb, data, j);
    HeldFlat(wb, data, ShareCapital, j);
    RetainedEarningsRollForward(wb, data, j);
    TotalEquityRule(wb, data, col);
    CheckRule(wb, data, col);
  }

  /** Cash is held flat while Retained Earnings accumulates the projected net
      income, so the projected Check drifts from the last historical one by
      exactly the net income projected so far. */
  lemma CheckDrift(wb: Workbook, data: seq<N.Period>, j: nat)
    requires Laid(wb, data) && 1 <= j <= T.ProjCols
    ensures Value(wb, Check, |data|).Some? && Value(wb, Check, |data| + j).Some?
    ensures Value(wb, Check, |data| + j).value ==
      Value(wb, Check, |data|).value - (ProjRetainedEarnings(data, j) - Last(data).retainedEarnings)
  {
    HistoricalCheck(wb, data, |data| - 1);
    ProjectedCheck(wb, data, j);
  }

  // No cell of a period column is an error.

  /** Every line has a value in every historical column. */
  lemma HistoricalValue(wb: Workbook, data: seq<N.Period>, l: Line, c: nat)
    requires Laid(wb, data) && c < |data|
    ensures Value(wb, l, c + 1).Some?
  {
    match l
    case GrossProfit => HistoricalEarnings(wb, data, c);
    case Ebitda => HistoricalEarnings(wb, data, c);
    case Ebit => HistoricalEarnings(wb, data, c);
    case Ebt => HistoricalEarnings(wb, data, c);
    case TotalAssets => HistoricalAssets(wb, data, c);
    case TotalLiabilities => HistoricalLiabilities(wb, data, c);
    case TotalEquity => HistoricalCheck(wb, data, c);
    case Check => HistoricalCheck(wb, data, c);
    case _ => HistoricalInput(wb, data, l, c);
  }

  /** Every line has a value in every projected column. */
  lemma ProjectedValue(wb: Workbook, data: seq<N.Period>, l: Line, j: nat)
    requires Laid(wb, data) && 1 <= j <= T.ProjCols
    ensures Value(wb, l, |data| + j).Some?
  {
    match l
    case Revenue => RevenueCompounds(wb, data, j);
    case Cogs => ProjectedCogs(wb, data, j);
    case Sga => ProjectedSga(wb, data, j);
    case GrossProfit => ProjectedOperating(wb, data, j);
    case Ebitda => ProjectedOperating(wb, data, j);
    case Ebit => ProjectedOperating(wb, data, j);
    case InterestExpense => InterestRule(wb, data, |data| + j);
    case Ebt => ProjectedEbt(wb, data, j);
    case Tax => ProjectedTax(wb, data, j);
    case NetIncome => ProjectedNetIncome(wb, data, j);
    case RetainedEarnings => RetainedEarningsRollForward(wb, data, j);
    case TotalAssets => ProjectedAssets(wb, data, j);
    case TotalLiabilities => ProjectedLiabilities(wb, data, j);
    case TotalEquity => ProjectedCheck(wb, data, j);
    case Check => ProjectedCheck(wb, data, j);
    case _ => HeldFlat(wb, data, l, j);
  }

  /** The workbook has no error cell: every line shows a number in every
      historical and projected column, so no formula refers to a cell that
      is empty, text, or not yet computed. */
  lemma EveryLineHasValue(wb: Workbook, data: seq<N.Period>, l: Line, col: nat)
    requires Laid(wb, data) && 1 <= col <= |data| + T.ProjCols
    ensures Value(wb, l, col).Some?
  {
    if col <= |data| {
      HistoricalValue(wb, data, l, col - 1);
    } else {
      ProjectedValue(wb, data, l, col - |data|);
    }
  }

  /** In a period whose components add up to its totals, as every period of
      the normalised table does (Other Assets and Other Liabilities are the
      plugs), the sheet's historical totals reproduce the reported totals. */
  lemma ReportedTotals(wb: Workbook, data: seq<N.Period>, c: nat)
    requires Laid(wb, data) && c < |data| && N.AssetsAddUp(data[c]) && N.LiabilitiesAddUp(data[c])
    ensures Value(wb, TotalAssets, c + 1) == Some(data[c].totalAssets)
    ensures Value(wb, TotalLiabilities, c + 1) == Some(data[c].totalLiab)
  {
    HistoricalAssets(wb, data, c);
    HistoricalLiabilities(wb, data, c);
  }
}
