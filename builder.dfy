/** `generate_excel_file`: writes the Assumptions and Model sheets cell by
    cell with a row counter and a `row_map` that fills up as line items are
    placed. The sheets are grids the methods update in place. */
module Builder {
  import opened Wrappers
  import opened Cells
  import opened Layout
  import opened LayoutFacts
  import opened SheetSpec
  import N = Normalise
  import T = Timeline
  import D = Drivers

  /** The first rows of a sheet: `title` in A1 and the timeline `labels`
      in row 3 from column B on. */
  method TitleAndHeader(title: string, labels: seq<string>, ghost full: Grid) returns (g: Grid)
    requires TopSpec(full, title, labels)
    ensures Prefix(g, full, HeaderRow + 1, 0)
  {
    EmptyPrefix(full);
    g := map[];
    WriteNext(g, full, TitleRow, 0, Text(title));
    g := g[(TitleRow, 0) := Text(title)];
    EndRow(g, full, TitleRow, 1);
    EndRow(g, full, 1, 0);
    SkipCell(g, full, HeaderRow, 0);
    WriteRow(g, full, HeaderRow, 1, labels);
    g := g + RowCells(HeaderRow, 1, labels);
  }

  class WorkbookBuilder {
    /** The Assumptions worksheet buffer. */
    var assumptions: Grid
    /** The Model worksheet buffer. */
    var model: Grid
    /** `r`: the zero-based row of the Model sheet written last. */
    var r: int
    /** `row_map`: the A1 row of each line item placed so far. */
    var rowMap: map<Line, nat>

    constructor ()
      ensures assumptions == map[] && model == map[] && r == 0 && rowMap == map[]
    {
      assumptions := map[];
      model := map[];
      r := 0;
      rowMap := map[];
    }

    /** The Assumptions sheet: title, timeline, then one row per driver with
        its historical ratios and five formulas linking to the last one. */
    method WriteAssumptions(data: seq<N.Period>, name: string)
      requires |data| > 0 && assumptions == map[]
      modifies this`assumptions
      ensures assumptions == AssumptionsSheet(data, name)
    {
      ghost var full := AssumptionsSheet(data, name);
      AssumptionsSheetSpec(data, name);
      WriteAssumptionsRows(data, name, full);
    }

    /** Fills the Assumptions buffer row by row until it holds every cell of
        any grid `full` that meets the sheet's description. */
    method WriteAssumptionsRows(data: seq<N.Period>, name: string, ghost full: Grid)
      requires |data| > 0 && assumptions == map[]
      requires AssumptionsSpec(full, data, name)
      modifies this`assumptions
      ensures assumptions == full
    {
      assumptions := TitleAndHeader(name + " Drivers", T.AllYears(YearsOf(data)), full);

      var d := 0;
      while d < |D.DriverRows|
        invariant 0 <= d <= |D.DriverRows|
        invariant Prefix(assumptions, full, DriverFirstRow + d, 0)
      {
        WriteDriverRow(d, data, full);
        d := d + 1;
      }
      PrefixComplete(assumptions, full, DriverFirstRow + |D.DriverRows|);
    }

    /** One driver row: its name, its historical ratio in each historical
        column, and in each projected column a formula referring to the last
        historical one. */
    method WriteDriverRow(d: nat, data: seq<N.Period>, ghost full: Grid)
      requires |data| > 0 && d < |D.DriverRows|
      requires DriverRowSpec(full, data, d) && (forall p :: p in full ==> p.1 >= 0)
      requires Prefix(assumptions, full, DriverFirstRow + d, 0)
      modifies this`assumptions
      ensures Prefix(assumptions, full, DriverFirstRow + d + 1, 0)
    {
      var n := |data|;
      var driver := D.DriverRows[d];
      var row := DriverFirstRow + d;
      WriteNext(assumptions, full, row, 0, Text(D.Name(driver)));
      assumptions := assumptions[(row, 0) := Text(D.Name(driver))];
      var c := 0;
      while c < n
        invariant 0 <= c <= n
        invariant Prefix(assumptions, full, row, c + 1)
      {
        var v := D.DriverValue(driver, data, c);
        WriteNext(assumptions, full, row, c + 1, Number(v));
        assumptions := assumptions[(row, c + 1) := Number(v)];
        c := c + 1;
      }
      // Link projection years to the last historical column.
      var lastValCol := n;
      var currRow := d + 4;
      c := 0;
      while c < T.ProjCols
        invariant 0 <= c <= T.ProjCols
        invariant Prefix(assumptions, full, row, n + 1 + c)
      {
        var cell := Formula(Ref(Assumptions, lastValCol, currRow));
        WriteNext(assumptions, full, row, n + 1 + c, cell);
        assumptions := assumptions[(row, n + 1 + c) := cell];
        c := c + 1;
      }
      EndRow(assumptions, full, row, n + 1 + T.ProjCols);
    }

    /** The Model sheet: title, timeline, the income statement and the
        balance sheet, each under its heading, with `row_map` filled as the
        items are placed. */
    method WriteModel(data: seq<N.Period>, name: string)
      requires |data| > 0 && model == map[] && rowMap == map[]
      modifies this`model, this`r, this`rowMap
      ensures model == ModelSheet(data, name) && rowMap == FullRowMap
    {
      ghost var full := ModelSheet(data, name);
      ModelSheetSpec(data, name);
      WriteModelRows(data, name, full);
    }

    /** Fills the Model buffer row by row until it holds every cell of any
        grid `full` that meets the sheet's description. */
    method WriteModelRows(data: seq<N.Period>, name: string, ghost full: Grid)
      requires |data| > 0 && model == map[] && rowMap == map[]
      requires ModelSpec(full, data, name)
      modifies this`model, this`r, this`rowMap
      ensures model == full && rowMap == FullRowMap
    {
      WriteModelTop(data, name, full);
      WriteSection(IncomeStatement, data, full);
      WriteBalanceSheetHeading(data, name, full);
      WriteSection(BalanceSheet, data, full);

      RowMapToFull(r + 1);
      PrefixComplete(model, full, r + 1);
    }

    /** Two blank rows below the income statement, then the balance sheet
        heading; `row_map` is unchanged. */
    method WriteBalanceSheetHeading(data: seq<N.Period>, name: string, ghost full: Grid)
      requires |data| > 0 && ModelSpec(full, data, name)
      requires r == HeadingRow(IncomeStatement) + |IsItems|
      requires Prefix(model, full, r + 1, 0) && rowMap == RowMapTo(r + 1)
      modifies this`model, this`r
      ensures r == HeadingRow(BalanceSheet)
      ensures Prefix(model, full, r + 1, 0) && rowMap == RowMapTo(r + 1)
    {
      EndRow(model, full, r + 1, 0);
      EndRow(model, full, r + 2, 0);
      RowMapToGap(r);
      r := r + 3;
      WriteNext(model, full, r, 0, Text("BALANCE SHEET"));
      model := model[(r, 0) := Text("BALANCE SHEET")];
      EndRow(model, full, r, 1);
    }

    /** The title, the timeline and the income statement heading; `row_map`
        starts empty. */
    method WriteModelTop(data: seq<N.Period>, name: string, ghost full: Grid)
      requires |data| > 0 && model == map[] && rowMap == map[]
      requires ModelTopSpec(full, data, name)
      modifies this`model, this`r
      ensures r == HeadingRow(IncomeStatement)
      ensures Prefix(model, full, r + 1, 0) && rowMap == RowMapTo(r + 1)
    {
      model := TitleAndHeader(name + " 3-Statement Model", T.AllYears(YearsOf(data)), full);
      r := 3;
      WriteNext(model, full, r, 0, Text("INCOME STATEMENT"));
      model := model[(r, 0) := Text("INCOME STATEMENT")];
      EndRow(model, full, r, 1);
      RowMapToStart(r + 1);
    }

    /** The items of one statement, one row each, below its heading. */
    method WriteSection(sec: Section, data: seq<N.Period>, ghost full: Grid)
      requires |data| > 0 && (forall p :: p in full ==> p.1 >= 0)
      requires forall i :: 0 <= i < |Items(sec)| ==> ItemRowSpec(full, data, sec, i)
      requires r == HeadingRow(sec)
      requires Prefix(model, full, r + 1, 0) && rowMap == RowMapTo(r + 1)
      modifies this`model, this`r, this`rowMap
      ensures r == HeadingRow(sec) + |Items(sec)|
      ensures Prefix(model, full, r + 1, 0) && rowMap == RowMapTo(r + 1)
    {
      var i := 0;
      while i < |Items(sec)|
        invariant 0 <= i <= |Items(sec)|
        invariant r == HeadingRow(sec) + i
        invariant Prefix(model, full, r + 1, 0) && rowMap == RowMapTo(r + 1)
      {
        WriteItem(sec, i, data, full);
        i := i + 1;
      }
    }

    /** Places item i of a section at the next row: records its row in
        `row_map`, writes its label, its historical cells and its projected
        cells. */
    method WriteItem(sec: Section, i: nat, data: seq<N.Period>, ghost full: Grid)
      requires |data| > 0 && i < |Items(sec)|
      requires ItemRowSpec(full, data, sec, i) && (forall p :: p in full ==> p.1 >= 0)
      requires r == HeadingRow(sec) + i
      requires Prefix(model, full, r + 1, 0) && rowMap == RowMapTo(r + 1)
      modifies this`model, this`r, this`rowMap
      ensures r == old(r) + 1
      ensures Prefix(model, full, r + 1, 0) && rowMap == RowMapTo(r + 1)
    {
      PlaceItem(sec, i, data, full);
      WriteHistoricalCells(sec, i, data, full);
      WriteProjectedCells(sec, i, data, full);
    }

    /** Moves to the next row, records it in `row_map` under the item's
        label and writes the label in column A. */
    method PlaceItem(sec: Section, i: nat, data: seq<N.Period>, ghost full: Grid)
      requires i < |Items(sec)| && ItemRowSpec(full, data, sec, i)
      requires r == HeadingRow(sec) + i
      requires Prefix(model, full, r + 1, 0) && rowMap == RowMapTo(r + 1)
      modifies this`model, this`r, this`rowMap
      ensures r == old(r) + 1 && r == ItemRow(sec, i) && rowMap == RowMapTo(r + 1)
      ensures Prefix(model, full, r, 1)
    {
      NextRow(sec, i);
      WriteLabel(Label(Items(sec)[i].line), full);
    }

    /** `r += 1; row_map[label] = r + 1` for item i of a section. */
    method NextRow(sec: Section, i: nat)
      requires i < |Items(sec)| && r == HeadingRow(sec) + i && rowMap == RowMapTo(r + 1)
      modifies this`r, this`rowMap
      ensures r == old(r) + 1 && r == ItemRow(sec, i) && rowMap == RowMapTo(r + 1)
    {
      RowMapToPlace(sec, i);
      r := r + 1;
      rowMap := rowMap[Items(sec)[i].line := r + 1];
    }

    /** Writes a row's label in column A. */
    method WriteLabel(text: string, ghost full: Grid)
      requires Prefix(model, full, r, 0) && (r, 0) in full && full[(r, 0)] == Text(text)
      modifies this`model
      ensures Prefix(model, full, r, 1)
    {
      WriteNext(model, full, r, 0, Text(text));
      model := model[(r, 0) := Text(text)];
    }

    /** The historical columns of the item on row `r`: its input value for
        each period, or its formula for a `Calc` item. */
    method WriteHistoricalCells(sec: Section, i: nat, data: seq<N.Period>, ghost full: Grid)
      requires |data| > 0 && i < |Items(sec)| && ItemRowSpec(full, data, sec, i)
      requires r == ItemRow(sec, i) && rowMap == RowMapTo(r + 1)
      requires Prefix(model, full, r, 1)
      modifies this`model
      ensures Prefix(model, full, r, |data| + 1)
    {
      var c := 0;
      while c < |data|
        invariant 0 <= c <= |data|
        invariant Prefix(model, full, r, c + 1)
      {
        WriteHistoricalCell(sec, i, data, c, full);
        c := c + 1;
      }
    }

    /** Column c + 1 of the item on row `r`: the value of period c, or the
        item's formula. */
    method WriteHistoricalCell(sec: Section, i: nat, data: seq<N.Period>, c: nat, ghost full: Grid)
      requires i < |Items(sec)| && ItemRowSpec(full, data, sec, i) && c < |data|
      requires r == ItemRow(sec, i) && rowMap == RowMapTo(r + 1)
      requires Prefix(model, full, r, c + 1)
      modifies this`model
      ensures Prefix(model, full, r, c + 2)
    {
      HistStep(model, full, data, sec, i, c);
      var cell := HistCell(Items(sec)[i], data[c], c + 1, rowMap);
      if cell.Some? {
        model := model[(r, c + 1) := cell.value];
      }
    }

    /** The five projected columns of the item on row `r`, which end the row. */
    method WriteProjectedCells(sec: Section, i: nat, data: seq<N.Period>, ghost full: Grid)
      requires |data| > 0 && i < |Items(sec)| && ItemRowSpec(full, data, sec, i)
      requires forall p :: p in full ==> p.1 >= 0
      requires r == ItemRow(sec, i) && rowMap == RowMapTo(r + 1)
      requires Prefix(model, full, r, |data| + 1)
      modifies this`model
      ensures Prefix(model, full, r + 1, 0)
    {
      var histCols := |data|;
      var c := 0;
      while c < T.ProjCols
        invariant 0 <= c <= T.ProjCols
        invariant Prefix(model, full, r, histCols + 1 + c)
      {
        WriteProjectedCell(sec, i, data, histCols + 1 + c, full);
        c := c + 1;
      }
      EndRow(model, full, r, histCols + 1 + T.ProjCols);
    }

    /** Projected column `currCol` of the item on row `r`. */
    method WriteProjectedCell(sec: Section, i: nat, data: seq<N.Period>, currCol: nat, ghost full: Grid)
      requires i < |Items(sec)| && ItemRowSpec(full, data, sec, i) && |data| < currCol <= |data| + T.ProjCols
      requires r == ItemRow(sec, i) && rowMap == RowMapTo(r + 1)
      requires Prefix(model, full, r, currCol)
      modifies this`model
      ensures Prefix(model, full, r, currCol + 1)
    {
      ProjStep(model, full, data, sec, i, currCol);
      var cell := ProjCell(sec, Items(sec)[i], currCol, r + 1, rowMap);
      if cell.Some? {
        model := model[(r, currCol) := cell.value];
      }
    }
  }
}
