/** Cell-by-cell descriptions of the two sheets, in the shape the writer
    fills them: each row as a set of facts about a grid `full`. The writer's
    methods are proved against these, and the lemmas here show that the
    sheets of the layout meet them. */
module SheetSpec {
  import opened Wrappers
  import opened Cells
  import opened Layout
  import opened LayoutFacts
  import N = Normalise
  import T = Timeline
  import D = Drivers

  /** Row 3 (zero-based 2) holds `labels` from column B on and nothing else. */
  ghost predicate HeaderSpec(full: Grid, labels: seq<string>) {
    (HeaderRow, 0) !in full &&
    (forall c :: 1 <= c < 1 + |labels| ==> (HeaderRow, c) in full && full[(HeaderRow, c)] == Text(labels[c - 1])) &&
    (forall p :: p in full && p.0 == HeaderRow ==> p.1 < 1 + |labels|)
  }

  /** The title alone in A1, a blank row 2 and the header row 3; every
      cell lies at a non-negative position. */
  ghost predicate TopSpec(full: Grid, title: string, labels: seq<string>) {
    (forall p :: p in full ==> 0 <= p.0 && 0 <= p.1 && p.0 != 1) &&
    (TitleRow, 0) in full && full[(TitleRow, 0)] == Text(title) &&
    (forall p :: p in full && p.0 == TitleRow ==> p.1 < 1) &&
    HeaderSpec(full, labels)
  }

  /** The row of driver d: its name, its historical ratios, then five links
      to the last historical column. */
  ghost predicate DriverRowSpec(full: Grid, data: seq<N.Period>, d: nat)
    requires d < |D.DriverRows|
  {
    var row := DriverFirstRow + d;
    var n := |data|;
    (row, 0) in full && full[(row, 0)] == Text(D.Name(D.DriverRows[d])) &&
    (forall c :: 0 <= c < n ==>
      (row, c + 1) in full && full[(row, c + 1)] == Number(D.DriverValue(D.DriverRows[d], data, c))) &&
    (forall col :: n < col <= n + T.ProjCols ==>
      (row, col) in full && full[(row, col)] == Formula(Ref(Assumptions, n, row + 1))) &&
    (forall p :: p in full && p.0 == row ==> 0 <= p.1 <= n + T.ProjCols)
  }

  /** The whole Assumptions sheet. */
  ghost predicate AssumptionsSpec(full: Grid, data: seq<N.Period>, name: string)
    requires |data| > 0
  {
    (forall p :: p in full ==> p.0 < DriverFirstRow + |D.DriverRows| && p.1 <= |data| + T.ProjCols) &&
    TopSpec(full, name + " Drivers", T.AllYears(YearsOf(data))) &&
    (forall d :: 0 <= d < |D.DriverRows| ==> DriverRowSpec(full, data, d))
  }

  /** The row of item i of a section, with the `row_map` in force when it is
      written: the label, the historical cells, the projected cells. */
  ghost predicate ItemRowSpec(full: Grid, data: seq<N.Period>, sec: Section, i: nat)
    requires i < |Items(sec)|
  {
    var row := ItemRow(sec, i);
    var it := Items(sec)[i];
    var rm := RowMapTo(row + 1);
    Deps(it.line) <= rm.Keys &&
    (row, 0) in full && full[(row, 0)] == Text(Label(it.line)) &&
    (forall c :: 0 <= c < |data| ==>
      ((row, c + 1) in full <==> HistCell(it, data[c], c + 1, rm).Some?) &&
      (HistCell(it, data[c], c + 1, rm).Some? ==> full[(row, c + 1)] == HistCell(it, data[c], c + 1, rm).value)) &&
    (forall col :: |data| < col <= |data| + T.ProjCols ==>
      ((row, col) in full <==> ProjCell(sec, it, col, row + 1, rm).Some?) &&
      (ProjCell(sec, it, col, row + 1, rm).Some? ==> full[(row, col)] == ProjCell(sec, it, col, row + 1, rm).value)) &&
    (forall p :: p in full && p.0 == row ==> 0 <= p.1 <= |data| + T.ProjCols)
  }

  /** The top of the Model sheet: the title, the timeline and the income
      statement heading, each alone on its row, and the sheet's columns. */
  ghost predicate ModelTopSpec(full: Grid, data: seq<N.Period>, name: string)
    requires |data| > 0
  {
    (forall p :: p in full ==> p.1 <= |data| + T.ProjCols) &&
    TopSpec(full, name + " 3-Statement Model", T.AllYears(YearsOf(data))) &&
    (IsHeadingRow, 0) in full && full[(IsHeadingRow, 0)] == Text("INCOME STATEMENT") &&
    (forall p :: p in full && p.0 == IsHeadingRow ==> p.1 < 1)
  }

  /** The whole Model sheet. */
  ghost predicate ModelSpec(full: Grid, data: seq<N.Period>, name: string)
    requires |data| > 0
  {
    ModelTopSpec(full, data, name) &&
    (forall p :: p in full ==> 0 <= p.0 < SheetRows && p.0 != 15 && p.0 != 16) &&
    (BsHeadingRow, 0) in full && full[(BsHeadingRow, 0)] == Text("BALANCE SHEET") &&
    (forall p :: p in full && p.0 == BsHeadingRow ==> p.1 < 1) &&
    (forall i :: 0 <= i < |IsItems| ==> ItemRowSpec(full, data, IncomeStatement, i)) &&
    (forall i :: 0 <= i < |BsItems| ==> ItemRowSpec(full, data, BalanceSheet, i))
  }

  /** The Assumptions sheet of the layout meets its description. */
  lemma AssumptionsSheetSpec(data: seq<N.Period>, name: string)
    requires |data| > 0
    ensures AssumptionsSpec(AssumptionsSheet(data, name), data, name)
  {
    var full := AssumptionsSheet(data, name);
    AssumptionsFixedRows(data, name);
    AssumptionsHeaderRow(data, name);
    forall d | 0 <= d < |D.DriverRows| ensures DriverRowSpec(full, data, d) {
      DriverRowMeetsSpec(data, name, d);
    }
  }

  lemma DriverRowMeetsSpec(data: seq<N.Period>, name: string, d: nat)
    requires |data| > 0 && d < |D.DriverRows|
    ensures DriverRowSpec(AssumptionsSheet(data, name), data, d)
  {
    var full := AssumptionsSheet(data, name);
    var row := DriverFirstRow + d;
    AssumptionsSheetAt(data, name, row, 0);
    forall c | 0 <= c < |data|
      ensures (row, c + 1) in full && full[(row, c + 1)] == Number(D.DriverValue(D.DriverRows[d], data, c))
    {
      AssumptionsSheetAt(data, name, row, c + 1);
    }
    forall col | |data| < col <= |data| + T.ProjCols
      ensures (row, col) in full && full[(row, col)] == Formula(Ref(Assumptions, |data|, row + 1))
    {
      AssumptionsSheetAt(data, name, row, col);
    }
    AssumptionsFixedRows(data, name);
  }

  /** The Model sheet of the layout meets its description. */
  lemma ModelSheetSpec(data: seq<N.Period>, name: string)
    requires |data| > 0
    ensures ModelSpec(ModelSheet(data, name), data, name)
  {
    ModelSheetBounds(data, name);
    ModelTitleAndGaps(data, name);
    ModelHeaderRow(data, name);
    ModelHeadings(data, name);
    forall i | 0 <= i < |IsItems| ensures ItemRowSpec(ModelSheet(data, name), data, IncomeStatement, i) {
      ItemRowMeetsSpec(data, name, IncomeStatement, i);
    }
    forall i | 0 <= i < |BsItems| ensures ItemRowSpec(ModelSheet(data, name), data, BalanceSheet, i) {
      ItemRowMeetsSpec(data, name, BalanceSheet, i);
    }
  }

  lemma ItemRowMeetsSpec(data: seq<N.Period>, name: string, sec: Section, i: nat)
    requires |data| > 0 && i < |Items(sec)|
    ensures ItemRowSpec(ModelSheet(data, name), data, sec, i)
  {
    RowMapToPlace(sec, i);
    RowMapToDeps(Items(sec)[i].line);
    ItemLabelCell(data, name, sec, i);
    ItemHistCells(data, name, sec, i);
    ItemProjCells(data, name, sec, i);
    ModelSheetBounds(data, name);
  }

  lemma ItemHistCells(data: seq<N.Period>, name: string, sec: Section, i: nat)
    requires |data| > 0 && i < |Items(sec)|
    ensures Deps(Items(sec)[i].line) <= RowMapTo(ItemRow(sec, i) + 1).Keys
    ensures forall c :: 0 <= c < |data| ==>
      ((ItemRow(sec, i), c + 1) in ModelSheet(data, name) <==> HistCell(Items(sec)[i], data[c], c + 1, RowMapTo(ItemRow(sec, i) + 1)).Some?) &&
      (HistCell(Items(sec)[i], data[c], c + 1, RowMapTo(ItemRow(sec, i) + 1)).Some? ==>
        ModelSheet(data, name)[(ItemRow(sec, i), c + 1)] == HistCell(Items(sec)[i], data[c], c + 1, RowMapTo(ItemRow(sec, i) + 1)).value)
  {
    RowMapToPlace(sec, i);
    RowMapToDeps(Items(sec)[i].line);
    forall c | 0 <= c < |data|
      ensures ((ItemRow(sec, i), c + 1) in ModelSheet(data, name) <==> HistCell(Items(sec)[i], data[c], c + 1, RowMapTo(ItemRow(sec, i) + 1)).Some?) &&
      (HistCell(Items(sec)[i], data[c], c + 1, RowMapTo(ItemRow(sec, i) + 1)).Some? ==>
        ModelSheet(data, name)[(ItemRow(sec, i), c + 1)] == HistCell(Items(sec)[i], data[c], c + 1, RowMapTo(ItemRow(sec, i) + 1)).value)
    {
      ItemHistCell(data, name, sec, i, c);
    }
  }

  lemma ItemProjCells(data: seq<N.Period>, name: string, sec: Section, i: nat)
    requires |data| > 0 && i < |Items(sec)|
    ensures Deps(Items(sec)[i].line) <= RowMapTo(ItemRow(sec, i) + 1).Keys
    ensures forall col :: |data| < col <= |data| + T.ProjCols ==>
      ((ItemRow(sec, i), col) in ModelSheet(data, name) <==> ProjCell(sec, Items(sec)[i], col, ItemRow(sec, i) + 1, RowMapTo(ItemRow(sec, i) + 1)).Some?) &&
      (ProjCell(sec, Items(sec)[i], col, ItemRow(sec, i) + 1, RowMapTo(ItemRow(sec, i) + 1)).Some? ==>
        ModelSheet(data, name)[(ItemRow(sec, i), col)] == ProjCell(sec, Items(sec)[i], col, ItemRow(sec, i) + 1, RowMapTo(ItemRow(sec, i) + 1)).value)
  {
    RowMapToPlace(sec, i);
    RowMapToDeps(Items(sec)[i].line);
    forall col | |data| < col <= |data| + T.ProjCols
      ensures ((ItemRow(sec, i), col) in ModelSheet(data, name) <==> ProjCell(sec, Items(sec)[i], col, ItemRow(sec, i) + 1, RowMapTo(ItemRow(sec, i) + 1)).Some?) &&
      (ProjCell(sec, Items(sec)[i], col, ItemRow(sec, i) + 1, RowMapTo(ItemRow(sec, i) + 1)).Some? ==>
        ModelSheet(data, name)[(ItemRow(sec, i), col)] == ProjCell(sec, Items(sec)[i], col, ItemRow(sec, i) + 1, RowMapTo(ItemRow(sec, i) + 1)).value)
    {
      ItemProjCell(data, name, sec, i, col);
    }
  }

  /** `g` with `cell` written at (row, col) when there is one. */
  function Put(g: Grid, row: int, col: int, cell: Option<Cell>): Grid {
    if cell.Some? then g[(row, col) := cell.value] else g
  }

  /** Writing historical column c + 1 of item i, or passing it over when
      the item has nothing there, extends the prefix by one cell. */
  lemma HistStep(g: Grid, full: Grid, data: seq<N.Period>, sec: Section, i: nat, c: nat)
    requires i < |Items(sec)| && ItemRowSpec(full, data, sec, i) && c < |data|
    requires Prefix(g, full, ItemRow(sec, i), c + 1)
    ensures Deps(Items(sec)[i].line) <= RowMapTo(ItemRow(sec, i) + 1).Keys
    ensures Prefix(Put(g, ItemRow(sec, i), c + 1, HistCell(Items(sec)[i], data[c], c + 1, RowMapTo(ItemRow(sec, i) + 1))),
                   full, ItemRow(sec, i), c + 2)
  {
    var cell := HistCell(Items(sec)[i], data[c], c + 1, RowMapTo(ItemRow(sec, i) + 1));
    if cell.Some? {
      WriteNext(g, full, ItemRow(sec, i), c + 1, cell.value);
    } else {
      SkipCell(g, full, ItemRow(sec, i), c + 1);
    }
  }

  /** The same for projected column `col`. */
  lemma ProjStep(g: Grid, full: Grid, data: seq<N.Period>, sec: Section, i: nat, col: nat)
    requires i < |Items(sec)| && ItemRowSpec(full, data, sec, i) && |data| < col <= |data| + T.ProjCols
    requires Prefix(g, full, ItemRow(sec, i), col)
    ensures Deps(Items(sec)[i].line) <= RowMapTo(ItemRow(sec, i) + 1).Keys
    ensures Prefix(Put(g, ItemRow(sec, i), col, ProjCell(sec, Items(sec)[i], col, ItemRow(sec, i) + 1, RowMapTo(ItemRow(sec, i) + 1))),
                   full, ItemRow(sec, i), col + 1)
  {
    var cell := ProjCell(sec, Items(sec)[i], col, ItemRow(sec, i) + 1, RowMapTo(ItemRow(sec, i) + 1));
    if cell.Some? {
      WriteNext(g, full, ItemRow(sec, i), col, cell.value);
    } else {
      SkipCell(g, full, ItemRow(sec, i), col);
    }
  }
}
