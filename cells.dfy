/** The worksheet contents the generator writes: literal numbers, text and
    formulas in a small expression language (cell references, +, -, *, SUM
    over a column range, constants), an evaluator for that language, and
    facts about filling a sheet in row-major order. */
module Cells {
  import opened Wrappers

  datatype SheetId = Assumptions | Model

  /** A cell position as `write(row, col)` takes it: zero-based row and column. */
  type Pos = (int, int)

  /** A formula. `row`, `first` and `last` are A1 row numbers (one-based, as
      written in the formula text); `col` is a zero-based column index. */
  datatype Expr =
    | Ref(sheet: SheetId, col: nat, row: nat)
    | Const(value: real)
    | Plus(left: Expr, right: Expr)
    | Minus(left: Expr, right: Expr)
    | Times(left: Expr, right: Expr)
    | SumCol(sheet: SheetId, col: nat, first: nat, last: nat)

  datatype Cell = Number(value: real) | Text(text: string) | Formula(expr: Expr)

  /** A worksheet buffer: the cells written so far. */
  type Grid = map<Pos, Cell>

  datatype Workbook = Workbook(assumptions: Grid, model: Grid)
  {
    function Sheet(s: SheetId): Grid {
      match s
      case Assumptions => assumptions
      case Model => model
    }
  }

  // Arithmetic on values that may be an error (None).

  function AddValues(a: Option<real>, b: Option<real>): Option<real> {
    if a.Some? && b.Some? then Some(a.value + b.value) else None
  }

  function SubValues(a: Option<real>, b: Option<real>): Option<real> {
    if a.Some? && b.Some? then Some(a.value - b.value) else None
  }

  function MulValues(a: Option<real>, b: Option<real>): Option<real> {
    if a.Some? && b.Some? then Some(a.value * b.value) else None
  }

  /** The Assumptions sheet is evaluated before the Model sheet. */
  function Rank(s: SheetId): nat {
    match s
    case Assumptions => 0
    case Model => 1
  }

  /** Cell (s', row', col') comes before cell (s, row, col) in evaluation
      order: an earlier sheet, an earlier column, or an earlier row of the
      same column. */
  predicate Before(s': SheetId, row': int, col': int, s: SheetId, row: int, col: int) {
    Rank(s') < Rank(s) || (Rank(s') == Rank(s) && (col' < col || (col' == col && row' < row)))
  }

  function Size(e: Expr): nat {
    match e
    case Plus(a, b) => Size(a) + Size(b) + 1
    case Minus(a, b) => Size(a) + Size(b) + 1
    case Times(a, b) => Size(a) + Size(b) + 1
    case _ => 1
  }

  function CellSize(g: Grid, row: int, col: int): nat {
    if (row, col) in g && g[(row, col)].Formula? then Size(g[(row, col)].expr) + 1 else 0
  }

  /** The value of a cell: a blank cell is 0, a text cell is no number, a
      formula is evaluated. A reference to a cell that does not come before
      the referring one is reported as an error, as a circular reference. */
  function EvalCell(wb: Workbook, s: SheetId, row: nat, col: nat): Option<real>
    decreases Rank(s), col, row, CellSize(wb.Sheet(s), row, col), 0
  {
    var g := wb.Sheet(s);
    if (row, col) !in g then Some(0.0)
    else
      match g[(row, col)]
      case Number(v) => Some(v)
      case Text(_) => None
      case Formula(e) => EvalExpr(wb, e, s, row, col)
  }

  /** The value of formula `e` written in cell (s, row, col). */
  function EvalExpr(wb: Workbook, e: Expr, s: SheetId, row: nat, col: nat): Option<real>
    decreases Rank(s), col, row, Size(e), 0
  {
    match e
    case Const(v) => Some(v)
    case Ref(s', c', r') =>
      if r' >= 1 && Before(s', r' - 1, c', s, row, col) then EvalCell(wb, s', r' - 1, c') else None
    case Plus(a, b) => AddValues(EvalExpr(wb, a, s, row, col), EvalExpr(wb, b, s, row, col))
    case Minus(a, b) => SubValues(EvalExpr(wb, a, s, row, col), EvalExpr(wb, b, s, row, col))
    case Times(a, b) => MulValues(EvalExpr(wb, a, s, row, col), EvalExpr(wb, b, s, row, col))
    case SumCol(s', c', first, last) =>
      if first >= 1 then EvalSum(wb, s', c', first - 1, last - 1, s, row, col) else None
  }

  /** The sum of rows lo..hi (zero-based, inclusive) of column c' of sheet s',
      as seen from cell (s, row, col). */
  function EvalSum(wb: Workbook, s': SheetId, c': nat, lo: nat, hi: int, s: SheetId, row: nat, col: nat): Option<real>
    decreases Rank(s), col, row, 0, hi - lo + 1
  {
    if lo > hi then Some(0.0)
    else if Before(s', lo, c', s, row, col) then
      AddValues(EvalCell(wb, s', lo, c'), EvalSum(wb, s', c', lo + 1, hi, s, row, col))
    else None
  }

  // Evaluating the formula shapes the generator writes.

  /** A reference to an earlier row of the same column, or to any row of an
      earlier column or sheet, reads that cell. */
  lemma EvalRef(wb: Workbook, s': SheetId, c': nat, r': nat, s: SheetId, row: nat, col: nat)
    requires r' >= 1 && Before(s', r' - 1, c', s, row, col)
    ensures EvalExpr(wb, Ref(s', c', r'), s, row, col) == EvalCell(wb, s', r' - 1, c')
  {
  }

  /** A cell holding formula e has the value of e. */
  lemma EvalFormula(wb: Workbook, s: SheetId, row: nat, col: nat, e: Expr)
    requires (row, col) in wb.Sheet(s) && wb.Sheet(s)[(row, col)] == Formula(e)
    ensures EvalCell(wb, s, row, col) == EvalExpr(wb, e, s, row, col)
  {
  }

  /** A SUM adds its first row to the sum of the rest. */
  lemma EvalSumStep(wb: Workbook, s': SheetId, c': nat, lo: nat, hi: int, s: SheetId, row: nat, col: nat)
    requires lo <= hi && Before(s', lo, c', s, row, col)
    ensures EvalSum(wb, s', c', lo, hi, s, row, col) ==
      AddValues(EvalCell(wb, s', lo, c'), EvalSum(wb, s', c', lo + 1, hi, s, row, col))
  {
  }

  /** The cells `write_row(row, col, labels)` writes. */
  function RowCells(row: int, col: int, labels: seq<string>): (g: Grid)
    ensures forall c :: col <= c < col + |labels| ==> (row, c) in g && g[(row, c)] == Text(labels[c - col])
    ensures forall p :: p in g ==> p.0 == row && col <= p.1 < col + |labels|
  {
    if labels == [] then map[]
    else
      var init := labels[..|labels| - 1];
      assert forall k :: 0 <= k < |init| ==> init[k] == labels[k];
      RowCells(row, col, init)[(row, col + |init|) := Text(labels[|init|])]
  }

  // Filling a sheet in row-major order.

  /** Position p is written before (row, col) in row-major order. */
  predicate LexBefore(p: Pos, row: int, col: int) {
    p.0 < row || (p.0 == row && p.1 < col)
  }

  /** g holds exactly the cells of `full` that come before (row, col). */
  ghost predicate Prefix(g: Grid, full: Grid, row: int, col: int) {
    (forall p :: p in g <==> p in full && LexBefore(p, row, col)) &&
    (forall p :: p in g ==> g[p] == full[p])
  }

  lemma EmptyPrefix(full: Grid)
    requires forall p :: p in full ==> p.0 >= 0 && p.1 >= 0
    ensures Prefix(map[], full, 0, 0)
  {
  }

  /** Writing the next cell of `full` extends the prefix by one cell. */
  lemma WriteNext(g: Grid, full: Grid, row: int, col: int, c: Cell)
    requires Prefix(g, full, row, col)
    requires (row, col) in full && full[(row, col)] == c
    ensures Prefix(g[(row, col) := c], full, row, col + 1)
  {
  }

  /** A blank cell of `full` is passed over. */
  lemma SkipCell(g: Grid, full: Grid, row: int, col: int)
    requires Prefix(g, full, row, col)
    requires (row, col) !in full
    ensures Prefix(g, full, row, col + 1)
  {
  }

  /** Once the last cell of a row is written, the prefix reaches the next row. */
  lemma EndRow(g: Grid, full: Grid, row: int, col: int)
    requires Prefix(g, full, row, col)
    requires forall p :: p in full ==> p.1 >= 0
    requires forall p :: p in full && p.0 == row ==> p.1 < col
    ensures Prefix(g, full, row + 1, 0)
  {
    forall p | p in full && LexBefore(p, row + 1, 0) ensures LexBefore(p, row, col) {
      if p.0 == row {
        assert p.1 < col;
      }
    }
  }

  /** Writing a header row of labels completes that row. */
  lemma WriteRow(g: Grid, full: Grid, row: int, col: int, labels: seq<string>)
    requires Prefix(g, full, row, col)
    requires forall c :: col <= c < col + |labels| ==> (row, c) in full && full[(row, c)] == Text(labels[c - col])
    requires forall p :: p in full && p.0 == row ==> p.1 < col + |labels|
    requires forall p :: p in full ==> p.1 >= 0
    ensures Prefix(g + RowCells(row, col, labels), full, row + 1, 0)
  {
    var h := g + RowCells(row, col, labels);
    forall p | p in full && LexBefore(p, row + 1, 0)
      ensures p in h
    {
      if p.0 == row && p.1 >= col {
        assert (row, p.1) in RowCells(row, col, labels);
      }
    }
  }

  /** Once every row of `full` has been written, the buffer is `full`. */
  lemma PrefixComplete(g: Grid, full: Grid, row: int)
    requires Prefix(g, full, row, 0)
    requires forall p :: p in full ==> p.0 < row
    ensures g == full
  {
    assert g.Keys == full.Keys;
  }
}
