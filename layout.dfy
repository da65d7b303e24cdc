/** The fixed layout of the generated workbook: the line items of the Model
    sheet with their keys, the row each one gets, the formula each cell
    holds, and the full contents of both sheets as functions of the
    normalised table. */
module Layout {
  import opened Wrappers
  import opened Cells
  import N = Normalise
  import T = Timeline
  import D = Drivers

  /** The line items of the Model sheet (its `label`s). */
  datatype Line =
    | Revenue | Cogs | GrossProfit | Sga | Ebitda | Da | Ebit | InterestExpense | Ebt | Tax | NetIncome
    | Cash | AccountsReceivable | Ppe | OtherAssets | TotalAssets
    | AccountsPayable | Debt | OtherLiabilities | TotalLiabilities
    | ShareCapital | RetainedEarnings | TotalEquity | Check

  /** Where a line's historical values come from: a column of the table or,
      for `Calc`, a formula. */
  datatype Key = Input(field: N.Field) | Calc

  datatype Item = Item(line: Line, key: Key)

  /** `is_items`. */
  const IsItems: seq<Item> := [
    Item(Revenue, Input(N.Revenue)),
    Item(Cogs, Input(N.Cogs)),
    Item(GrossProfit, Calc),
    Item(Sga, Input(N.Sga)),
    Item(Ebitda, Calc),
    Item(Da, Input(N.Da)),
    Item(Ebit, Calc),
    Item(InterestExpense, Input(N.Interest)),
    Item(Ebt, Calc),
    Item(Tax, Input(N.Tax)),
    Item(NetIncome, Input(N.NetIncome))
  ]

  /** `bs_items`. */
  const BsItems: seq<Item> := [
    Item(Cash, Input(N.Cash)),
    Item(AccountsReceivable, Input(N.Ar)),
    Item(Ppe, Input(N.Ppe)),
    Item(OtherAssets, Input(N.OtherAssets)),
    Item(TotalAssets, Calc),
    Item(AccountsPayable, Input(N.Ap)),
    Item(Debt, Input(N.Debt)),
    Item(OtherLiabilities, Input(N.OtherLiab)),
    Item(TotalLiabilities, Calc),
    Item(ShareCapital, Input(N.ShareCapital)),
    Item(RetainedEarnings, Input(N.RetainedEarnings)),
    Item(TotalEquity, Calc),
    Item(Check, Calc)
  ]

  function Label(l: Line): string {
    match l
    case Revenue => "Revenue"
    case Cogs => "COGS"
    case GrossProfit => "Gross Profit"
    case Sga => "SG&A"
    case Ebitda => "EBITDA"
    case Da => "D&A"
    case Ebit => "EBIT"
    case InterestExpense => "Interest Expense"
    case Ebt => "EBT"
    case Tax => "Tax"
    case NetIncome => "Net Income"
    case Cash => "Cash"
    case AccountsReceivable => "Accounts Receivable"
    case Ppe => "PP&E"
    case OtherAssets => "Other Assets"
    case TotalAssets => "Total Assets"
    case AccountsPayable => "Accounts Payable"
    case Debt => "Debt"
    case OtherLiabilities => "Other Liabilities"
    case TotalLiabilities => "Total Liabilities"
    case ShareCapital => "Share Capital"
    case RetainedEarnings => "Retained Earnings"
    case TotalEquity => "Total Equity"
    case Check => "Check"
  }

  // Zero-based sheet rows of the fixed parts of the layout.
  const TitleRow: nat := 0
  const HeaderRow: nat := 2
  const DriverFirstRow: nat := 3
  const IsHeadingRow: nat := 3
  const BsHeadingRow: nat := IsHeadingRow + |IsItems| + 3
  const SheetRows: nat := BsHeadingRow + |BsItems| + 1

  /** `row_map[label]`: the A1 (one-based) row number of each line item. */
  function Row(l: Line): nat {
    match l
    case Revenue => 5
    case Cogs => 6
    case GrossProfit => 7
    case Sga => 8
    case Ebitda => 9
    case Da => 10
    case Ebit => 11
    case InterestExpense => 12
    case Ebt => 13
    case Tax => 14
    case NetIncome => 15
    case Cash => 19
    case AccountsReceivable => 20
    case Ppe => 21
    case OtherAssets => 22
    case TotalAssets => 23
    case AccountsPayable => 24
    case Debt => 25
    case OtherLiabilities => 26
    case TotalLiabilities => 27
    case ShareCapital => 28
    case RetainedEarnings => 29
    case TotalEquity => 30
    case Check => 31
  }

  const AllLines: set<Line> := {
    Revenue, Cogs, GrossProfit, Sga, Ebitda, Da, Ebit, InterestExpense, Ebt, Tax, NetIncome,
    Cash, AccountsReceivable, Ppe, OtherAssets, TotalAssets, AccountsPayable, Debt, OtherLiabilities,
    TotalLiabilities, ShareCapital, RetainedEarnings, TotalEquity, Check
  }

  /** `row_map` once every line has been placed. */
  const FullRowMap: map<Line, nat> := map l | l in AllLines :: Row(l)

  /** The lines whose `row_map` entries a line's formulas look up. */
  function Deps(l: Line): (ds: set<Line>)
    ensures ds <= AllLines
  {
    match l
    case Cogs => {Revenue}
    case GrossProfit => {Revenue, Cogs}
    case Sga => {Revenue}
    case Ebitda => {GrossProfit, Sga}
    case Ebit => {Ebitda, Da}
    case Ebt => {Ebit, InterestExpense}
    case Tax => {Ebt}
    case NetIncome => {Ebt, Tax}
    case TotalAssets => {Cash, OtherAssets}
    case TotalLiabilities => {AccountsPayable, OtherLiabilities}
    case TotalEquity => {ShareCapital, RetainedEarnings}
    case Check => {TotalAssets, TotalLiabilities, TotalEquity}
    case RetainedEarnings => {NetIncome}
    case _ => {}
  }

  /** The formula of a `Calc` line in column `col`; the same in historical
      and projected columns. */
  function CalcFormula(l: Line, col: nat, rm: map<Line, nat>): Option<Cell>
    requires Deps(l) <= rm.Keys
  {
    match l
    case GrossProfit => Some(Formula(Minus(Ref(Model, col, rm[Revenue]), Ref(Model, col, rm[Cogs]))))
    case Ebitda => Some(Formula(Minus(Ref(Model, col, rm[GrossProfit]), Ref(Model, col, rm[Sga]))))
    case Ebit => Some(Formula(Minus(Ref(Model, col, rm[Ebitda]), Ref(Model, col, rm[Da]))))
    case Ebt => Some(Formula(Minus(Ref(Model, col, rm[Ebit]), Ref(Model, col, rm[InterestExpense]))))
    case TotalAssets => Some(Formula(SumCol(Model, col, rm[Cash], rm[OtherAssets])))
    case TotalLiabilities => Some(Formula(SumCol(Model, col, rm[AccountsPayable], rm[OtherLiabilities])))
    case TotalEquity => Some(Formula(Plus(Ref(Model, col, rm[ShareCapital]), Ref(Model, col, rm[RetainedEarnings]))))
    case Check =>
      Some(Formula(Minus(Ref(Model, col, rm[TotalAssets]),
                         Plus(Ref(Model, col, rm[TotalLiabilities]), Ref(Model, col, rm[TotalEquity])))))
    case _ => None
  }

  /** What a historical column of an item holds: the input value, or the
      line's formula for a `Calc` item. */
  function HistCell(it: Item, p: N.Period, col: nat, rm: map<Line, nat>): Option<Cell>
    requires Deps(it.line) <= rm.Keys
  {
    match it.key
    case Input(f) => Some(Number(p.Get(f)))
    case Calc => CalcFormula(it.line, col, rm)
  }

  /** What a projected column `col` of an income-statement item holds; `own`
      is the item's own A1 row. Assumptions rows 4 to 7 are the growth, COGS,
      SG&A and tax-rate drivers. */
  function IsProjCell(it: Item, col: nat, own: nat, rm: map<Line, nat>): Option<Cell>
    requires col >= 1 && Deps(it.line) <= rm.Keys
  {
    var prev := col - 1;
    match it.line
    case Revenue => Some(Formula(Times(Ref(Model, prev, own), Plus(Const(1.0), Ref(Assumptions, col, 4)))))
    case Cogs => Some(Formula(Times(Ref(Model, col, rm[Revenue]), Ref(Assumptions, col, 5))))
    case Sga => Some(Formula(Times(Ref(Model, col, rm[Revenue]), Ref(Assumptions, col, 6))))
    case InterestExpense => Some(Number(0.0))
    case Tax => Some(Formula(Times(Ref(Model, col, rm[Ebt]), Ref(Assumptions, col, 7))))
    case Da => Some(Formula(Ref(Model, prev, own)))
    case GrossProfit => CalcFormula(it.line, col, rm)
    case Ebitda => CalcFormula(it.line, col, rm)
    case Ebit => CalcFormula(it.line, col, rm)
    case Ebt => CalcFormula(it.line, col, rm)
    case NetIncome => Some(Formula(Minus(Ref(Model, col, rm[Ebt]), Ref(Model, col, rm[Tax]))))
    case _ => None
  }

  /** What a projected column `col` of a balance-sheet item holds: inputs
      other than Cash and Retained Earnings copy the previous column; Retained
      Earnings adds the column's Net Income; Cash copies the previous column;
      the totals and the Check keep their formulas. */
  function BsProjCell(it: Item, col: nat, own: nat, rm: map<Line, nat>): Option<Cell>
    requires col >= 1 && Deps(it.line) <= rm.Keys
  {
    var prev := col - 1;
    if !(it.key.Calc? || it.key == Input(N.Cash) || it.key == Input(N.RetainedEarnings)) then
      Some(Formula(Ref(Model, prev, own)))
    else if it.line == RetainedEarnings then
      Some(Formula(Plus(Ref(Model, prev, own), Ref(Model, col, rm[NetIncome]))))
    else if it.line == Cash then
      Some(Formula(Ref(Model, prev, own)))
    else
      match it.line
      case TotalAssets => CalcFormula(it.line, col, rm)
      case TotalLiabilities => CalcFormula(it.line, col, rm)
      case TotalEquity => CalcFormula(it.line, col, rm)
      case Check => CalcFormula(it.line, col, rm)
      case _ => None
  }

  datatype Section = IncomeStatement | BalanceSheet

  /** What cell (row, col) of an item's row holds: its label in column 0,
      then the historical columns, then the five projected columns. */
  function ItemCell(sec: Section, it: Item, data: seq<N.Period>, row: nat, col: int, rm: map<Line, nat>): Option<Cell>
    requires Deps(it.line) <= rm.Keys
  {
    if col == 0 then Some(Text(Label(it.line)))
    else if 1 <= col <= |data| then HistCell(it, data[col - 1], col, rm)
    else if |data| < col <= |data| + T.ProjCols then ProjCell(sec, it, col, row + 1, rm)
    else None
  }

  /** The projected-column rule of the section an item belongs to. */
  function ProjCell(sec: Section, it: Item, col: nat, own: nat, rm: map<Line, nat>): Option<Cell>
    requires col >= 1 && Deps(it.line) <= rm.Keys
  {
    match sec
    case IncomeStatement => IsProjCell(it, col, own, rm)
    case BalanceSheet => BsProjCell(it, col, own, rm)
  }

  /** The items of a section, in the order they are written. */
  function Items(sec: Section): seq<Item> {
    match sec
    case IncomeStatement => IsItems
    case BalanceSheet => BsItems
  }

  /** The zero-based row of item i of a section. */
  function ItemRow(sec: Section, i: nat): nat {
    HeadingRow(sec) + 1 + i
  }

  /** The zero-based row of a section's heading; its items follow it. */
  function HeadingRow(sec: Section): nat {
    match sec
    case IncomeStatement => IsHeadingRow
    case BalanceSheet => BsHeadingRow
  }

  function YearsOf(data: seq<N.Period>): (years: seq<N.Year>)
    ensures |years| == |data|
  {
    seq(|data|, i requires 0 <= i < |data| => data[i].year)
  }

  /** The header row of both sheets: the timeline from column 1 on. */
  function HeaderCell(data: seq<N.Period>, col: int): Option<Cell>
    requires |data| > 0
  {
    if 1 <= col <= |data| + T.ProjCols then Some(Text(T.AllYears(YearsOf(data))[col - 1])) else None
  }

  /** The intended content of cell (row, col) of the Model sheet. */
  function ModelCell(data: seq<N.Period>, name: string, row: int, col: int): Option<Cell>
    requires |data| > 0
  {
    if col < 0 || col > |data| + T.ProjCols then None
    else if row == TitleRow then (if col == 0 then Some(Text(name + " 3-Statement Model")) else None)
    else if row == HeaderRow then HeaderCell(data, col)
    else if row == IsHeadingRow then (if col == 0 then Some(Text("INCOME STATEMENT")) else None)
    else if IsHeadingRow < row <= IsHeadingRow + |IsItems| then
      ItemCell(IncomeStatement, IsItems[row - IsHeadingRow - 1], data, row, col, FullRowMap)
    else if row == BsHeadingRow then (if col == 0 then Some(Text("BALANCE SHEET")) else None)
    else if BsHeadingRow < row <= BsHeadingRow + |BsItems| then
      ItemCell(BalanceSheet, BsItems[row - BsHeadingRow - 1], data, row, col, FullRowMap)
    else None
  }

  /** The intended content of cell (row, col) of the Assumptions sheet. */
  function AssumptionsCell(data: seq<N.Period>, name: string, row: int, col: int): Option<Cell>
    requires |data| > 0
  {
    var n := |data|;
    if col < 0 || col > n + T.ProjCols then None
    else if row == TitleRow then (if col == 0 then Some(Text(name + " Drivers")) else None)
    else if row == HeaderRow then HeaderCell(data, col)
    else if DriverFirstRow <= row < DriverFirstRow + |D.DriverRows| then
      var d := D.DriverRows[row - DriverFirstRow];
      if col == 0 then Some(Text(D.Name(d)))
      else if col <= n then Some(Number(D.DriverValue(d, data, col - 1)))
      else Some(Formula(Ref(Assumptions, n, row + 1)))
    else None
  }

  /** The cells either sheet may use. */
  function Positions(n: nat): set<Pos> {
    set row: int, col: int | 0 <= row < SheetRows && 0 <= col <= n + T.ProjCols :: (row, col)
  }

  /** The Model sheet the generator writes for `data`. */
  function ModelSheet(data: seq<N.Period>, name: string): Grid
    requires |data| > 0
  {
    map p | p in Positions(|data|) && ModelCell(data, name, p.0, p.1).Some? :: ModelCell(data, name, p.0, p.1).value
  }

  /** The Assumptions sheet the generator writes for `data`. */
  function AssumptionsSheet(data: seq<N.Period>, name: string): Grid
    requires |data| > 0
  {
    map p | p in Positions(|data|) && AssumptionsCell(data, name, p.0, p.1).Some? ::
      AssumptionsCell(data, name, p.0, p.1).value
  }

  function BuiltWorkbook(data: seq<N.Period>, name: string): Workbook
    requires |data| > 0
  {
    Workbook(AssumptionsSheet(data, name), ModelSheet(data, name))
  }

  /** The sheet holds exactly the intended cells. */
  lemma ModelSheetAt(data: seq<N.Period>, name: string, row: int, col: int)
    requires |data| > 0
    ensures (row, col) in ModelSheet(data, name) <==> ModelCell(data, name, row, col).Some?
    ensures (row, col) in ModelSheet(data, name) ==>
      ModelSheet(data, name)[(row, col)] == ModelCell(data, name, row, col).value
  {
    if ModelCell(data, name, row, col).Some? {
      assert (row, col) in Positions(|data|);
    }
  }

  lemma AssumptionsSheetAt(data: seq<N.Period>, name: string, row: int, col: int)
    requires |data| > 0
    ensures (row, col) in AssumptionsSheet(data, name) <==> AssumptionsCell(data, name, row, col).Some?
    ensures (row, col) in AssumptionsSheet(data, name) ==>
      AssumptionsSheet(data, name)[(row, col)] == AssumptionsCell(data, name, row, col).value
  {
    if AssumptionsCell(data, name, row, col).Some? {
      assert (row, col) in Positions(|data|);
    }
  }
}

module LayoutFacts {
  import opened Wrappers
  import opened Cells
  import opened Layout
  import N = Normalise

  /** The line placed at an A1 row, if any. */
  function LineAt(row: int): Option<Line> {
    if IsHeadingRow + 2 <= row < IsHeadingRow + 2 + |IsItems| then Some(IsItems[row - IsHeadingRow - 2].line)
    else if BsHeadingRow + 2 <= row < BsHeadingRow + 2 + |BsItems| then Some(BsItems[row - BsHeadingRow - 2].line)
    else None
  }

  /** The row counter gives item i of each list the row `row_map` records:
      the heading row plus 2 plus i (A1, one-based). */
  lemma {:induction false} LayoutRows()
    ensures forall i :: 0 <= i < |IsItems| ==> Row(IsItems[i].line) == IsHeadingRow + 2 + i
    ensures forall j :: 0 <= j < |BsItems| ==> Row(BsItems[j].line) == BsHeadingRow + 2 + j
  {
    forall i | 0 <= i < |IsItems| ensures Row(IsItems[i].line) == IsHeadingRow + 2 + i {
      if i < 6 {
        if i < 3 { assert i == 0 || i == 1 || i == 2; } else { assert i == 3 || i == 4 || i == 5; }
      } else {
        assert i == 6 || i == 7 || i == 8 || i == 9 || i == 10;
      }
    }
    forall j | 0 <= j < |BsItems| ensures Row(BsItems[j].line) == BsHeadingRow + 2 + j {
      if j < 7 {
        if j < 4 { assert j == 0 || j == 1 || j == 2 || j == 3; } else { assert j == 4 || j == 5 || j == 6; }
      } else {
        assert j == 7 || j == 8 || j == 9 || j == 10 || j == 11 || j == 12;
      }
    }
  }

  /** Every line has a row of its own: LineAt inverts Row. */
  lemma {:induction false} RowInverse(l: Line)
    ensures LineAt(Row(l)) == Some(l)
  {
    match l
    case Revenue =>
    case Cogs =>
    case GrossProfit =>
    case Sga =>
    case Ebitda =>
    case Da =>
    case Ebit =>
    case InterestExpense =>
    case Ebt =>
    case Tax =>
    case NetIncome =>
    case Cash =>
    case AccountsReceivable =>
    case Ppe =>
    case OtherAssets =>
    case TotalAssets =>
    case AccountsPayable =>
    case Debt =>
    case OtherLiabilities =>
    case TotalLiabilities =>
    case ShareCapital =>
    case RetainedEarnings =>
    case TotalEquity =>
    case Check =>
  }

  /** `row_map` gives distinct lines distinct rows. */
  lemma RowInjective(l1: Line, l2: Line)
    ensures Row(l1) == Row(l2) ==> l1 == l2
  {
    RowInverse(l1);
    RowInverse(l2);
  }

  /** Rows strictly increase down each list, so each SUM range covers exactly
      the contiguous lines between its two ends, and the balance sheet lies
      below the income statement. */
  lemma RowsIncreasing()
    ensures forall i, j :: 0 <= i < j < |IsItems| ==> Row(IsItems[i].line) < Row(IsItems[j].line)
    ensures forall i, j :: 0 <= i < j < |BsItems| ==> Row(BsItems[i].line) < Row(BsItems[j].line)
    ensures forall i, j :: 0 <= i < |IsItems| && 0 <= j < |BsItems| ==> Row(IsItems[i].line) < Row(BsItems[j].line)
  {
    LayoutRows();
  }

  /** Every line a formula looks up is placed above the line itself. */
  lemma DepsBefore(l: Line)
    ensures forall d :: d in Deps(l) ==> Row(d) < Row(l)
  {
  }

  /** Every line is in the layout. */
  lemma AllLinesComplete(l: Line)
    ensures l in AllLines
  {
  }

  /** Two `row_map`s that agree on what a line looks up give it the same cells. */
  lemma ItemCellFrame(sec: Section, it: Item, data: seq<N.Period>, row: nat, col: int, rm1: map<Line, nat>, rm2: map<Line, nat>)
    requires Deps(it.line) <= rm1.Keys && Deps(it.line) <= rm2.Keys
    requires forall d :: d in Deps(it.line) ==> rm1[d] == rm2[d]
    ensures ItemCell(sec, it, data, row, col, rm1) == ItemCell(sec, it, data, row, col, rm2)
  {
  }

  /** `row_map` once every line up to A1 row `row` has been placed. */
  function RowMapTo(row: int): map<Line, nat> {
    map l | l in AllLines && Row(l) <= row :: Row(l)
  }

  /** Every line sits in one of the two statements' row ranges. */
  lemma RowRange(l: Line)
    ensures 5 <= Row(l) <= 15 || 19 <= Row(l) <= 31
  {
    match l
    case Revenue =>
    case Cogs =>
    case GrossProfit =>
    case Sga =>
    case Ebitda =>
    case Da =>
    case Ebit =>
    case InterestExpense =>
    case Ebt =>
    case Tax =>
    case NetIncome =>
    case Cash =>
    case AccountsReceivable =>
    case Ppe =>
    case OtherAssets =>
    case TotalAssets =>
    case AccountsPayable =>
    case Debt =>
    case OtherLiabilities =>
    case TotalLiabilities =>
    case ShareCapital =>
    case RetainedEarnings =>
    case TotalEquity =>
    case Check =>
  }

  /** Before the first item `row_map` is empty. */
  lemma RowMapToStart(row: int)
    requires row == HeadingRow(IncomeStatement) + 1
    ensures RowMapTo(row) == map[]
  {
    forall l ensures 5 <= Row(l) {
      RowRange(l);
    }
    assert RowMapTo(row).Keys == {};
  }

  /** The rows between the two statements place nothing: moving the row
      counter from `prev` to the balance sheet heading leaves `row_map` as it is. */
  lemma RowMapToGap(prev: int)
    requires prev + 3 == HeadingRow(BalanceSheet)
    ensures RowMapTo(prev + 3 + 1) == RowMapTo(prev + 1)
  {
    forall l ensures Row(l) <= 18 <==> Row(l) <= 15 {
      RowRange(l);
    }
    assert RowMapTo(prev + 3 + 1).Keys == RowMapTo(prev + 1).Keys;
  }

  /** After the last item `row_map` is full. */
  lemma RowMapToFull(row: int)
    requires row == HeadingRow(BalanceSheet) + 1 + |BsItems|
    ensures RowMapTo(row) == FullRowMap
  {
    forall l ensures Row(l) <= 31 {
      RowRange(l);
    }
    assert RowMapTo(row).Keys == FullRowMap.Keys;
  }

  /** Placing item i of a section on its row adds exactly that row to
      `row_map`. */
  lemma RowMapToPlace(sec: Section, i: nat)
    requires i < |Items(sec)|
    ensures Row(Items(sec)[i].line) == ItemRow(sec, i) + 1
    ensures RowMapTo(ItemRow(sec, i) + 1) == RowMapTo(ItemRow(sec, i))[Items(sec)[i].line := ItemRow(sec, i) + 1]
  {
    LayoutRows();
    RowMapToNext(Items(sec)[i].line, ItemRow(sec, i) + 1);
  }

  /** Reaching the row of line l adds l, and only l, to `row_map`. */
  lemma RowMapToNext(l: Line, row: int)
    requires Row(l) == row
    ensures RowMapTo(row) == RowMapTo(row - 1)[l := row]
  {
    AllLinesComplete(l);
    forall l' ensures l' in RowMapTo(row) <==> l' in RowMapTo(row - 1)[l := row] {
      RowInjective(l', l);
    }
  }

  /** When a line is placed, every line its formulas look up is already in
      `row_map`, at its final row. */
  lemma RowMapToDeps(l: Line)
    ensures Deps(l) <= RowMapTo(Row(l)).Keys
    ensures forall d :: d in Deps(l) ==> RowMapTo(Row(l))[d] == FullRowMap[d]
  {
    DepsBefore(l);
  }

  /** The Model sheet uses rows 0 to SheetRows - 1 and columns 0 to the last
      projected one. */
  lemma ModelSheetBounds(data: seq<N.Period>, name: string)
    requires |data| > 0
    ensures forall p :: p in ModelSheet(data, name) ==> 0 <= p.0 < SheetRows && 0 <= p.1 <= |data| + T.ProjCols
  {
    forall p | p in ModelSheet(data, name) ensures 0 <= p.0 < SheetRows && 0 <= p.1 <= |data| + T.ProjCols {
      assert p in Positions(|data|);
    }
  }

  /** The Model sheet's cells on an item's row are the item's cells, laid
      out with the complete `row_map`. */
  lemma ModelCellItem(data: seq<N.Period>, name: string, sec: Section, i: nat, col: int)
    requires |data| > 0 && i < |Items(sec)|
    ensures 0 <= col <= |data| + T.ProjCols ==>
      ModelCell(data, name, ItemRow(sec, i), col) == ItemCell(sec, Items(sec)[i], data, ItemRow(sec, i), col, FullRowMap)
  {
    match sec
    case IncomeStatement =>
    case BalanceSheet =>
  }

  /** Column 0 of an item's row holds the item's label. */
  lemma ItemLabelCell(data: seq<N.Period>, name: string, sec: Section, i: nat)
    requires |data| > 0 && i < |Items(sec)|
    ensures (ItemRow(sec, i), 0) in ModelSheet(data, name)
    ensures ModelSheet(data, name)[(ItemRow(sec, i), 0)] == Text(Label(Items(sec)[i].line))
  {
    ModelSheetAt(data, name, ItemRow(sec, i), 0);
    ModelCellItem(data, name, sec, i, 0);
  }

  /** The Model sheet's cell in column `col` of an item's row. */
  lemma ModelItemCell(data: seq<N.Period>, name: string, sec: Section, i: nat, col: int)
    requires |data| > 0 && i < |Items(sec)| && 0 <= col <= |data| + T.ProjCols
    ensures var cell := ItemCell(sec, Items(sec)[i], data, ItemRow(sec, i), col, FullRowMap);
      ((ItemRow(sec, i), col) in ModelSheet(data, name) <==> cell.Some?) &&
      (cell.Some? ==> ModelSheet(data, name)[(ItemRow(sec, i), col)] == cell.value)
  {
    ModelSheetAt(data, name, ItemRow(sec, i), col);
    ModelCellItem(data, name, sec, i, col);
  }

  /** An item's cells come out the same with the `row_map` built up to its
      own row as with the complete one. */
  lemma ItemCellSoFar(data: seq<N.Period>, sec: Section, i: nat, col: int)
    requires i < |Items(sec)|
    ensures Deps(Items(sec)[i].line) <= RowMapTo(ItemRow(sec, i) + 1).Keys
    ensures ItemCell(sec, Items(sec)[i], data, ItemRow(sec, i), col, RowMapTo(ItemRow(sec, i) + 1)) ==
            ItemCell(sec, Items(sec)[i], data, ItemRow(sec, i), col, FullRowMap)
  {
    var it := Items(sec)[i];
    RowMapToPlace(sec, i);
    RowMapToDeps(it.line);
    ItemCellFrame(sec, it, data, ItemRow(sec, i), col, RowMapTo(ItemRow(sec, i) + 1), FullRowMap);
  }

  /** Historical column c + 1 of an item's row holds what `HistCell` gives
      for period c with the `row_map` built so far. */
  lemma ItemHistCell(data: seq<N.Period>, name: string, sec: Section, i: nat, c: nat)
    requires |data| > 0 && i < |Items(sec)| && c < |data|
    ensures Deps(Items(sec)[i].line) <= RowMapTo(ItemRow(sec, i) + 1).Keys
    ensures var cell := HistCell(Items(sec)[i], data[c], c + 1, RowMapTo(ItemRow(sec, i) + 1));
      ((ItemRow(sec, i), c + 1) in ModelSheet(data, name) <==> cell.Some?) &&
      (cell.Some? ==> ModelSheet(data, name)[(ItemRow(sec, i), c + 1)] == cell.value)
  {
    ItemCellSoFar(data, sec, i, c + 1);
    ModelItemCell(data, name, sec, i, c + 1);
  }

  /** A projected column of an item's row holds what `ProjCell` gives with
      the `row_map` built so far. */
  lemma ItemProjCell(data: seq<N.Period>, name: string, sec: Section, i: nat, col: nat)
    requires |data| > 0 && i < |Items(sec)| && |data| < col <= |data| + T.ProjCols
    ensures Deps(Items(sec)[i].line) <= RowMapTo(ItemRow(sec, i) + 1).Keys
    ensures var cell := ProjCell(sec, Items(sec)[i], col, ItemRow(sec, i) + 1, RowMapTo(ItemRow(sec, i) + 1));
      ((ItemRow(sec, i), col) in ModelSheet(data, name) <==> cell.Some?) &&
      (cell.Some? ==> ModelSheet(data, name)[(ItemRow(sec, i), col)] == cell.value)
  {
    ItemCellSoFar(data, sec, i, col);
    ModelItemCell(data, name, sec, i, col);
  }

  /** The title row, the blank row below it and the two blank rows above
      the balance sheet: only the title in A1. */
  lemma ModelTitleAndGaps(data: seq<N.Period>, name: string)
    requires |data| > 0
    ensures (TitleRow, 0) in ModelSheet(data, name)
    ensures ModelSheet(data, name)[(TitleRow, 0)] == Text(name + " 3-Statement Model")
    ensures forall p :: p in ModelSheet(data, name) && p.0 == TitleRow ==> p.1 < 1
    ensures forall p :: p in ModelSheet(data, name) ==> p.0 != 1 && p.0 != 15 && p.0 != 16
  {
    ModelSheetAt(data, name, TitleRow, 0);
    forall p | p in ModelSheet(data, name)
      ensures (p.0 == TitleRow ==> p.1 < 1) && p.0 != 1 && p.0 != 15 && p.0 != 16
    {
      ModelSheetAt(data, name, p.0, p.1);
    }
  }

  /** Row 3 of the Model sheet is the timeline, from column B on. */
  lemma ModelHeaderRow(data: seq<N.Period>, name: string)
    requires |data| > 0
    ensures (HeaderRow, 0) !in ModelSheet(data, name)
    ensures forall c :: 1 <= c < 1 + |T.AllYears(YearsOf(data))| ==>
      (HeaderRow, c) in ModelSheet(data, name) && ModelSheet(data, name)[(HeaderRow, c)] == Text(T.AllYears(YearsOf(data))[c - 1])
    ensures forall p :: p in ModelSheet(data, name) && p.0 == HeaderRow ==> p.1 < 1 + |T.AllYears(YearsOf(data))|
  {
    ModelSheetAt(data, name, HeaderRow, 0);
    forall c | 1 <= c < 1 + |T.AllYears(YearsOf(data))|
      ensures (HeaderRow, c) in ModelSheet(data, name) && ModelSheet(data, name)[(HeaderRow, c)] == Text(T.AllYears(YearsOf(data))[c - 1])
    {
      ModelSheetAt(data, name, HeaderRow, c);
    }
    forall p | p in ModelSheet(data, name) && p.0 == HeaderRow ensures p.1 < 1 + |T.AllYears(YearsOf(data))| {
      ModelSheetAt(data, name, p.0, p.1);
    }
  }

  /** The two section headings stand alone in column A. */
  lemma ModelHeadings(data: seq<N.Period>, name: string)
    requires |data| > 0
    ensures (IsHeadingRow, 0) in ModelSheet(data, name)
    ensures ModelSheet(data, name)[(IsHeadingRow, 0)] == Text("INCOME STATEMENT")
    ensures (BsHeadingRow, 0) in ModelSheet(data, name)
    ensures ModelSheet(data, name)[(BsHeadingRow, 0)] == Text("BALANCE SHEET")
    ensures forall p :: p in ModelSheet(data, name) && (p.0 == IsHeadingRow || p.0 == BsHeadingRow) ==> p.1 < 1
  {
    ModelSheetAt(data, name, IsHeadingRow, 0);
    ModelSheetAt(data, name, BsHeadingRow, 0);
    forall p | p in ModelSheet(data, name) && (p.0 == IsHeadingRow || p.0 == BsHeadingRow) ensures p.1 < 1 {
      ModelSheetAt(data, name, p.0, p.1);
    }
  }

  /** The Assumptions sheet uses rows 0 to 8 and columns 0 to the last
      projected one; its title row holds only the title and row 2 nothing. */
  lemma AssumptionsFixedRows(data: seq<N.Period>, name: string)
    requires |data| > 0
    ensures forall p :: p in AssumptionsSheet(data, name) ==>
      0 <= p.0 < DriverFirstRow + |D.DriverRows| && 0 <= p.1 <= |data| + T.ProjCols && p.0 != 1
    ensures forall p :: p in AssumptionsSheet(data, name) && p.0 == TitleRow ==> p.1 < 1
    ensures (TitleRow, 0) in AssumptionsSheet(data, name)
    ensures AssumptionsSheet(data, name)[(TitleRow, 0)] == Text(name + " Drivers")
  {
    AssumptionsSheetAt(data, name, TitleRow, 0);
    forall p | p in AssumptionsSheet(data, name)
      ensures 0 <= p.0 < DriverFirstRow + |D.DriverRows| && 0 <= p.1 <= |data| + T.ProjCols && p.0 != 1
      ensures p.0 == TitleRow ==> p.1 < 1
    {
      assert p in Positions(|data|);
      AssumptionsSheetAt(data, name, p.0, p.1);
    }
  }

  /** Row 3 of the Assumptions sheet is the timeline, from column B on. */
  lemma AssumptionsHeaderRow(data: seq<N.Period>, name: string)
    requires |data| > 0
    ensures (HeaderRow, 0) !in AssumptionsSheet(data, name)
    ensures forall c :: 1 <= c < 1 + |T.AllYears(YearsOf(data))| ==>
      (HeaderRow, c) in AssumptionsSheet(data, name) && AssumptionsSheet(data, name)[(HeaderRow, c)] == Text(T.AllYears(YearsOf(data))[c - 1])
    ensures forall p :: p in AssumptionsSheet(data, name) && p.0 == HeaderRow ==> p.1 < 1 + |T.AllYears(YearsOf(data))|
  {
    AssumptionsSheetAt(data, name, HeaderRow, 0);
    forall c | 1 <= c < 1 + |T.AllYears(YearsOf(data))|
      ensures (HeaderRow, c) in AssumptionsSheet(data, name) && AssumptionsSheet(data, name)[(HeaderRow, c)] == Text(T.AllYears(YearsOf(data))[c - 1])
    {
      AssumptionsSheetAt(data, name, HeaderRow, c);
    }
    forall p | p in AssumptionsSheet(data, name) && p.0 == HeaderRow ensures p.1 < 1 + |T.AllYears(YearsOf(data))| {
      AssumptionsSheetAt(data, name, p.0, p.1);
    }
  }
}
