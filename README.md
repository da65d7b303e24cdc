# Three-statement model generator, modelled in Dafny

The program takes a ticker and fetches the company's income statement, balance sheet and cash-flow statement. It normalises them into one row of named figures per fiscal period. It then writes a two-sheet workbook:

- **Assumptions** holds six driver ratios per historical period. Each ratio has a division-by-zero guard. The five projection columns link back to the last historical ratio.
- **Model** holds an income statement and a balance sheet, one row per line item. Historical columns hold the reported figures or intra-column formulas. The five projected columns hold formulas over the previous column, the same column and the Assumptions sheet.

A dashboard shows three headline ratios of the latest period.

The model covers this core:

- `normalise.dfy` (module `Normalise`) models the alias lookup `get_col`, the two plug lines, the normalised table and the "Can't find" failure.
- `timeline.dfy` (`Timeline`) models the `YYYYA` / `YYYYE` column labels. It includes the integer-to-string round trip that `proj_years` relies on.
- `drivers.dfy` (`Drivers`) models the six guarded driver ratios.
- `cells.dfy` (`Cells`) models cells, formulas and worksheet buffers as maps from (row, column) to a cell. A formula is a cell reference, `+`, `-`, `*`, a constant or `SUM` over a column range. An evaluator gives each number or formula cell the value a spreadsheet shows for the formulas this workbook uses, or `None` when it has none: an error, or a text cell used as a number. The file also has lemmas about filling a buffer in row-major order.
- `layout.dfy` has two modules:
  - `Layout` describes the line items, their rows, what every cell of both sheets holds, and the two sheets as maps.
  - `LayoutFacts` proves the row layout and the cell-by-cell shape of those sheets.
- `sheetspec.dfy` (`SheetSpec`) holds the predicates the builder's methods are proved against, plus the lemmas that the two intended sheets meet them.
- `builder.dfy` (`Builder`) holds the imperative writer, class `WorkbookBuilder`. It keeps the two worksheet buffers, the row counter `r` and `row_map`, and updates them in place through nested loops, as `generate_excel_file` does. Its methods are proved to produce exactly the intended sheets.
- `properties.dfy` (`ModelProperties`) holds the accounting identities and projection rules, stated on the values of any workbook laid out like the generated one. The generated workbook is proved to be such a workbook.
- `generate.dfy` (`Generate`) models `generate_excel_file` end to end: fetch, build, or the error message.
- `dashboard.dfy` (`Dashboard`) models the KPI ratios of `update_dashboard`.

Figures are Dafny `real`s and missing provider entries read as zero. Line items are an enumeration, and `row_map` maps a line to its one-based (A1) row. Column letters are zero-based column indices.

## Model

| member | source | states |
|---|---|---|
| Normalise.GetCol | 3_statement_model.py:27-32 | The looked-up column has one entry per period, whichever alias matches. |
| Normalise.GetColFirstMatch | 3_statement_model.py:27-32 | The lookup returns the first alias in the key list that the table has, with missing entries read as 0. Later aliases are ignored. When no alias is present the column is all zeros. |
| Normalise.FillNa | 3_statement_model.py:31 | `fillna(0)` keeps one entry per period. Each present entry is kept, and a missing one reads as 0. |
| Normalise.Aliases | 3_statement_model.py:37-63 | The table and the alias list tried for each column, in order. Other Assets and Other Liab have none, because they are computed as plugs. It has no contract of its own: PeriodField and LookedUp state what the lookup yields. |
| Normalise.LookedUp | 3_statement_model.py:37-63 | Each looked-up column has one entry per period. A column with aliases is the GetCol lookup of its table. |
| Normalise.NormalisePeriod | 3_statement_model.py:34-58 | Every normalised period balances. Cash + AR + PP&E + Other Assets equals Total Assets, and AP + Debt + Other Liab equals Total Liab, because the two "other" lines are computed as the plugs. |
| Normalise.PeriodField | 3_statement_model.py:36-62 | Every looked-up figure of a period is the entry of its alias lookup for that period. |
| Normalise.Normalised | 3_statement_model.py:34-64 | The normalised table has one period per provider date, in the same order. Each period has that date's year and balances as above. |
| Normalise.FetchCompanyData | 3_statement_model.py:15-25 | The fetch fails exactly when the income statement is empty, with the message "Can't find " followed by the ticker. Otherwise it returns the normalised table, which has at least one period. |
| Timeline.NatToString | 3_statement_model.py:99-100 | `str` of a number is a non-empty string of decimal digits without leading zeros: it starts with '0' exactly when the number is 0. With ParseNatToString this fixes the string uniquely. |
| Timeline.ParseNatToString | 3_statement_model.py:100 | `int` of `str(n)` gives n back. |
| Timeline.FourDigits | 3_statement_model.py:99-100 | A period's year prints as four digits, so `label[:4]` is the whole year. |
| Timeline.HistLabels | 3_statement_model.py:99 | One label per period. TimelineShape states that label i is year i followed by "A". |
| Timeline.ProjLabels | 3_statement_model.py:100 | Exactly five projected labels. TimelineShape states that they are last year + 1 … + 5, each followed by "E". |
| Timeline.AllYears | 3_statement_model.py:99-103 | The timeline has one label per historical period plus five. |
| Timeline.TimelineShape | 3_statement_model.py:99-103 | The first labels are the periods' years followed by "A", in input order. Projected label k (k from 1 to 5) is the last historical year plus k, followed by "E". |
| Drivers.Ratio | 3_statement_model.py:130-139 | A guarded ratio is 0 when the denominator is 0. Otherwise it times the denominator gives the numerator. |
| Drivers.Name | 3_statement_model.py:110-117 | The six driver names in row order. It has no contract of its own: AssumptionsSheetAt, and BuiltIsLaid through the driver rows of `Laid`, state that column A of driver row k holds the name of the k-th driver. |
| Drivers.PreTax | 3_statement_model.py:134 | Pre-tax income is Revenue − COGS − SG&A − Interest. It has no contract of its own: DriverValue states the tax-rate guard over it. |
| Drivers.DefaultTaxRate | 3_statement_model.py:135 | The tax rate written when pre-tax income is zero is 0.21. DriverValue states this case. |
| Drivers.DriverValue | 3_statement_model.py:119-141 | The six guard rules. Revenue growth is 0 in the first column or after a zero revenue; otherwise (growth + 1) times the previous revenue is the current revenue. COGS, SG&A and Capex are shares of revenue, and 0 when revenue is 0. D&A is a share of PP&E, and 0 when PP&E is 0. The tax rate times pre-tax income is the tax, and the rate is exactly 0.21 when pre-tax income is 0. |
| Cells.RowCells | 3_statement_model.py:108 | `write_row(row, col, labels)` writes label k at column col + k of that row and nothing else. The contract is proved from the contract of the recursive call. |
| Layout.ModelSheetAt | 3_statement_model.py:151-248 | A position is in the Model sheet exactly when the layout puts a cell there, and it holds that cell. |
| Layout.AssumptionsSheetAt | 3_statement_model.py:107-147 | A position is in the Assumptions sheet exactly when the layout puts a cell there, and it holds that cell. |
| Layout.IsItems | 3_statement_model.py:156-168 | The eleven income-statement items with their keys, in order. LayoutRows states the row of each, and ItemOf, HistoricalInput and the `Calc` rules rest on their keys. |
| Layout.BsItems | 3_statement_model.py:207-221 | The thirteen balance-sheet items with their keys, in order. LayoutRows states the row of each, and CopyRule's exclusion of `Calc`, Cash and Retained Earnings reads their keys. |
| Layout.Label | 3_statement_model.py:156-168 | The label written in column A of each line's row (also lines 207-221). It has no contract of its own: ItemLabelCell states that the Model sheet holds it. |
| Layout.Deps | 3_statement_model.py:180-248 | The lines whose `row_map` entries a line's formulas look up, all among the placed lines. DepsBefore states that each is on an earlier row, and RowMapToDeps that `row_map` already holds each when the line's formulas are written. |
| Layout.HeaderCell | 3_statement_model.py:152 | The timeline from column B of row 3 (also line 108). It has no contract of its own: ModelHeaderRow and AssumptionsHeaderRow state it. |
| Layout.ItemCell | 3_statement_model.py:174-202 | An item's row: its label in column A, then the historical cells, then the five projected cells, and nothing beyond (also lines 226-248). It has no contract of its own: ItemLabelCell, ItemHistCell and ItemProjCell state it. |
| Layout.ProjCell | 3_statement_model.py:185-202 | The projected-column rule of the item's statement (also lines 237-248). It has no contract of its own: ItemProjCell and the rule lemmas state it. |
| Layout.ModelCell | 3_statement_model.py:151-248 | Every cell of the Model sheet: the title, the timeline, the two headings and each item's row at the row LayoutRows gives. It has no contract of its own: ModelSheetAt, ModelCellItem, ModelItemCell, ModelTitleAndGaps, ModelHeaderRow and ModelHeadings state it. |
| Layout.Row | 3_statement_model.py:171-173 | The `row_map` entry of every line. It has no contract of its own: LayoutRows proves that it is the row-counter arithmetic of lines 171-173 and 223-225, and RowInverse and RowInjective that each row belongs to one line. |
| Layout.CalcFormula | 3_statement_model.py:180-183 | The formula of each `Calc` line, the same in historical and projected columns. It has no contract of its own: GrossProfitRule, EbitdaRule, EbitRule, EbtRule, TotalAssetsRule, TotalLiabilitiesRule, TotalEquityRule and CheckRule state what each formula shows. Lines 232-235 are the balance-sheet half. |
| Layout.HistCell | 3_statement_model.py:177-183 | A historical cell holds the reported figure of a non-`Calc` item, or else the line's formula. It has no contract of its own: ItemHistCell and HistoricalInput state it for the written sheet, and lines 229-235 are the balance-sheet half. |
| Layout.IsProjCell | 3_statement_model.py:185-202 | The projected cell of each income-statement line. It has no contract of its own: RevenueRule, CogsRule, SgaRule, InterestRule, TaxRule, NetIncomeRule, the `Calc` rules and CopyRule (for D&A) state what each cell shows. |
| Layout.BsProjCell | 3_statement_model.py:237-248 | The projected cell of each balance-sheet line. It has no contract of its own: CopyRule and RetainedEarningsRule state what the copied lines and Retained Earnings show, and the totals keep the `Calc` rules. |
| Layout.AssumptionsCell | 3_statement_model.py:107-147 | The title, the timeline, and for each driver row the name, the historical ratios and the link to the last historical column. It has no contract of its own: AssumptionsSheetAt, AssumptionsFixedRows, HistoricalDriver and ProjectedDriver state it. |
| LayoutFacts.LayoutRows | 3_statement_model.py:154-225 | Income-statement item i sits on zero-based row 4 + i, and balance-sheet item j on row 4 + 11 + 3 + j. This follows from `r = 3`, one increment per item and the `r += 3` gap. |
| LayoutFacts.RowInverse | 3_statement_model.py:171-173 | Each line's row identifies that line: reading the item back from a row gives the line. |
| LayoutFacts.RowInjective | 3_statement_model.py:173 | No two line items share a row in `row_map`. |
| LayoutFacts.RowsIncreasing | 3_statement_model.py:171-173 | Rows increase strictly in list order, within each statement and from the income statement to the balance sheet. So each SUM range covers exactly the rows from its first to its last item. |
| LayoutFacts.DepsBefore | 3_statement_model.py:180-183 | Every line a formula of a line refers to in its own column sits on an earlier row. |
| LayoutFacts.RowMapToDeps | 3_statement_model.py:172-173 | When a line is placed, `row_map` already holds every line its formulas name, with their final rows. |
| LayoutFacts.ItemHistCell | 3_statement_model.py:175-183 | A historical cell written with `row_map` as it stands on that row is the cell of the finished layout. |
| LayoutFacts.ItemProjCell | 3_statement_model.py:185-202 | A projected cell written with `row_map` as it stands on that row is the cell of the finished layout. |
| LayoutFacts.ModelTitleAndGaps | 3_statement_model.py:151 | The Model sheet's A1 is the company name followed by " 3-Statement Model". Nothing else is on that row, and rows 2, 16 and 17 are empty. |
| LayoutFacts.ModelHeaderRow | 3_statement_model.py:152 | Model row 3 holds the timeline from column B on and nothing else. |
| LayoutFacts.ModelHeadings | 3_statement_model.py:155-206 | The two statement headings sit alone in column A of their rows. |
| LayoutFacts.AssumptionsFixedRows | 3_statement_model.py:107-147 | The Assumptions sheet has only its title, header and six driver rows, within the period columns. Its A1 is the company name followed by " Drivers". |
| LayoutFacts.AssumptionsHeaderRow | 3_statement_model.py:108 | Assumptions row 3 holds the timeline from column B on and nothing else. |
| Builder.TitleAndHeader | 3_statement_model.py:107-108 | Writing the title and the timeline leaves the buffer holding exactly the sheet's first three rows. |
| Builder.WorkbookBuilder.constructor | 3_statement_model.py:169 | Both buffers and `row_map` start empty. |
| Builder.WorkbookBuilder.WriteAssumptions | 3_statement_model.py:105-147 | After the driver loops, the Assumptions buffer is exactly the intended Assumptions sheet. |
| Builder.WorkbookBuilder.WriteAssumptionsRows | 3_statement_model.py:107-147 | The buffer ends up holding every cell of any grid that meets the Assumptions description, row by row. |
| Builder.WorkbookBuilder.WriteDriverRow | 3_statement_model.py:119-147 | One driver row appends its name, its ratio in every historical column and five links to the last historical column. Every earlier row is unchanged. |
| Builder.WorkbookBuilder.WriteModel | 3_statement_model.py:149-248 | After the item loops, the Model buffer is exactly the intended Model sheet and `row_map` holds every line at its row. |
| Builder.WorkbookBuilder.WriteModelRows | 3_statement_model.py:151-248 | The buffer ends up holding every cell of any grid that meets the Model description, and `row_map` is full. |
| Builder.WorkbookBuilder.WriteModelTop | 3_statement_model.py:151-155 | Title, timeline and income-statement heading are written, `r` is 3, and `row_map` is still empty. |
| Builder.WorkbookBuilder.WriteSection | 3_statement_model.py:171-173 | After a statement's loop, `r` has advanced by one per item and the buffer holds every row so far. `row_map` holds exactly the lines placed so far. |
| Builder.WorkbookBuilder.WriteBalanceSheetHeading | 3_statement_model.py:205-206 | `r += 3` and the heading leave two blank rows, with `row_map` unchanged. |
| Builder.WorkbookBuilder.WriteItem | 3_statement_model.py:171-202 | One item adds exactly its row, and `row_map` gains exactly its line. |
| Builder.WorkbookBuilder.PlaceItem | 3_statement_model.py:172-174 | `r += 1`, the item's row recorded in `row_map` and its label in column A. |
| Builder.WorkbookBuilder.NextRow | 3_statement_model.py:172-173 | `r += 1; row_map[label] = r + 1` moves to the item's row and records its A1 row. |
| Builder.WorkbookBuilder.WriteLabel | 3_statement_model.py:174 | The label is written in column A of the current row. |
| Builder.WorkbookBuilder.WriteHistoricalCells | 3_statement_model.py:175-183 | The historical columns of a row are written left to right. |
| Builder.WorkbookBuilder.WriteHistoricalCell | 3_statement_model.py:177-183 | A historical cell holds the input figure, or the line's formula for a `Calc` item. |
| Builder.WorkbookBuilder.WriteProjectedCells | 3_statement_model.py:185-202 | The five projected columns end the row. |
| Builder.WorkbookBuilder.WriteProjectedCell | 3_statement_model.py:191-202 | A projected cell holds the line's projection formula. |
| ModelProperties.BuiltIsLaid | 3_statement_model.py:149-248 | The generated workbook holds, in every line's row and every driver row, exactly the cells the layout prescribes. |
| ModelProperties.GrossProfitRule | 3_statement_model.py:180 | In every period column, Gross Profit shows Revenue − COGS. |
| ModelProperties.EbitdaRule | 3_statement_model.py:181 | EBITDA shows Gross Profit − SG&A. |
| ModelProperties.EbitRule | 3_statement_model.py:182 | EBIT shows EBITDA − D&A. |
| ModelProperties.EbtRule | 3_statement_model.py:183 | EBT shows EBIT − Interest Expense. |
| ModelProperties.TotalAssetsRule | 3_statement_model.py:232 | Total Assets sums exactly Cash, Accounts Receivable, PP&E and Other Assets. |
| ModelProperties.TotalLiabilitiesRule | 3_statement_model.py:233 | Total Liabilities sums exactly Accounts Payable, Debt and Other Liabilities. |
| ModelProperties.TotalEquityRule | 3_statement_model.py:234 | Total Equity shows Share Capital + Retained Earnings. |
| ModelProperties.CheckRule | 3_statement_model.py:235 | Check shows Total Assets − (Total Liabilities + Total Equity). |
| ModelProperties.HistoricalInput | 3_statement_model.py:177-178 | A non-`Calc` line shows the period's input figure in its historical column. |
| ModelProperties.HistoricalDriver | 3_statement_model.py:119-141 | Each historical driver cell shows that period's guarded ratio. |
| ModelProperties.ProjectedDriver | 3_statement_model.py:143-147 | Every projected driver cell links to the last historical column, so it shows the last historical ratio. |
| ModelProperties.RevenueRule | 3_statement_model.py:191 | Projected Revenue shows the previous column's Revenue × (1 + growth of Assumptions row 4 of the same column). |
| ModelProperties.CogsRule | 3_statement_model.py:192 | Projected COGS shows Revenue × Assumptions row 5. |
| ModelProperties.SgaRule | 3_statement_model.py:193 | Projected SG&A shows Revenue × Assumptions row 6. |
| ModelProperties.InterestRule | 3_statement_model.py:194 | Projected Interest Expense is 0. |
| ModelProperties.TaxRule | 3_statement_model.py:195 | Projected Tax shows EBT × Assumptions row 7. |
| ModelProperties.NetIncomeRule | 3_statement_model.py:202 | Projected Net Income shows EBT − Tax. |
| ModelProperties.CopyRule | 3_statement_model.py:241-244 | Cash and every balance-sheet input except Retained Earnings show the previous column's value in a projected column. D&A does too, by line 196. |
| ModelProperties.RetainedEarningsRule | 3_statement_model.py:243 | Projected Retained Earnings shows the previous column's balance + this column's Net Income. |
| ModelProperties.HistoricalEarnings | 3_statement_model.py:177-183 | Historical GP, EBITDA, EBIT and EBT equal the period's revenue less COGS, SG&A, D&A and interest in turn. |
| ModelProperties.HistoricalIncomeInputs | 3_statement_model.py:177-178 | The historical Revenue, COGS, SG&A, D&A and Interest Expense cells show the period's reported figures. |
| ModelProperties.HistoricalAssets | 3_statement_model.py:229-232 | Historical Total Assets equals the sum of the period's four asset figures. |
| ModelProperties.HistoricalLiabilities | 3_statement_model.py:229-233 | Historical Total Liabilities equals the sum of the period's three liability figures. |
| ModelProperties.HistoricalCheck | 3_statement_model.py:234-235 | Historical Total Equity is Share Capital + Retained Earnings, not the reported equity. Check is assets − (liabilities + that equity). |
| ModelProperties.ReportedTotals | 3_statement_model.py:56-58 | For a balanced period, as every normalised period is, the sheet's historical totals equal the reported Total Assets and Total Liab. |
| ModelProperties.RevenueCompounds | 3_statement_model.py:191 | Projected year j shows the last revenue × (1 + last growth)^j. |
| ModelProperties.HeldFlat | 3_statement_model.py:241-244 | Cash, the other copied balance-sheet lines and D&A (line 196) stay at their last historical value in all five projected years. |
| ModelProperties.FlatAssets | 3_statement_model.py:241-244 | Cash, Accounts Receivable, PP&E and Other Assets stay at their last historical values in every projected column. |
| ModelProperties.FlatLiabilities | 3_statement_model.py:241-242 | Accounts Payable, Debt and Other Liabilities stay at their last historical values in every projected column. |
| ModelProperties.ProjectedCogs | 3_statement_model.py:192 | Projected COGS is the projected revenue × the last COGS ratio. |
| ModelProperties.ProjectedSga | 3_statement_model.py:193 | Projected SG&A is the projected revenue × the last SG&A ratio. |
| ModelProperties.ProjectedOperating | 3_statement_model.py:198-200 | Projected GP, EBITDA and EBIT are projected revenue less projected COGS, SG&A and the flat D&A. |
| ModelProperties.ProjectedEbt | 3_statement_model.py:194-201 | Projected EBT is revenue × (1 − COGS ratio − SG&A ratio) − last D&A, since interest is 0. |
| ModelProperties.ProjectedTax | 3_statement_model.py:195 | Projected Tax is projected EBT × the last tax rate. |
| ModelProperties.ProjectedNetIncome | 3_statement_model.py:202 | Projected Net Income is EBT × (1 − last tax rate). |
| ModelProperties.RetainedEarningsRollForward | 3_statement_model.py:243 | Projected Retained Earnings is the last balance plus the projected net income of years 1 to j. |
| ModelProperties.ProjectedAssets | 3_statement_model.py:241-245 | Projected Total Assets is flat at the last period's asset sum. |
| ModelProperties.ProjectedLiabilities | 3_statement_model.py:241-246 | Projected Total Liabilities is flat at the last period's liability sum. |
| ModelProperties.ProjectedCheck | 3_statement_model.py:243-248 | Projected Total Equity is the flat Share Capital + the rolled-forward Retained Earnings. Check is the last balance sheet against that equity. |
| ModelProperties.CheckDrift | 3_statement_model.py:243-248 | Cash stays flat while Retained Earnings accumulates, so the projected Check differs from the last historical Check by exactly the net income projected so far. |
| ModelProperties.HistoricalValue | 3_statement_model.py:175-183 | Every line shows a number (no error) in every historical column. |
| ModelProperties.ProjectedValue | 3_statement_model.py:185-248 | Every line shows a number in every projected column. |
| ModelProperties.EveryLineHasValue | 3_statement_model.py:171-248 | No line-item cell of a period column of the Model sheet is an error. Header and heading text cells are not covered. Every formula refers only to cells that are computed first: earlier rows of the same column, an earlier column, or the Assumptions sheet. So the workbook has no circular reference. That a projected formula reads the previous column in particular is stated by RevenueRule, CopyRule and RetainedEarningsRule. |
| Generate.GenerateExcelFile | 3_statement_model.py:78-83 | The run fails exactly when the ticker's income statement is empty, with the "Can't find" message. Otherwise it returns the normalised table and the workbook built from it, titled with `shortName` or the ticker, and that workbook satisfies every identity above. |
| Generate.CompanyName | 3_statement_model.py:70 | The name in both sheet titles is `shortName` when the provider has it, else the ticker. It has no contract of its own: GenerateExcelFile states that the built workbook uses it. |
| Dashboard.KpisOf | 3_statement_model.py:358-366 | Each ratio is 0 when its denominator is 0, and otherwise times it gives the numerator. The ratios are year-over-year revenue growth against the previous period (or the latest one if there is only one), net margin and debt-to-equity. |
| Dashboard.Previous | 3_statement_model.py:359 | The previous period is the one before the latest, or the latest itself when there is one period. It has no contract of its own: SinglePeriodNoGrowth and GrowthIsRevenueRatio state its effect on growth. |
| Dashboard.SinglePeriodNoGrowth | 3_statement_model.py:359-364 | With one period, the growth KPI is 0. |
| Dashboard.GrowthIsRevenueRatio | 3_statement_model.py:364 | With a non-zero previous revenue, growth is latest / previous − 1. |

## Left out

- The provider calls (`yf.Ticker`, the three statement tables, `stock.info`) are network I/O. They become parameters: a `Statements` value holding the period years and the three tables over one shared period index, and a string map for `info`.
- pandas mechanics (`.T`, `sort_index`, index alignment across the three tables, `iloc`/`loc`) are left out. The periods arrive sorted and aligned, and a missing entry is `None` read as 0.
- The company `meta` other than the name is left out. The dashboard displays sector and industry as a subtitle only, and never uses currency.
- The progress line `fetch_company_data` prints before it calls the provider is console output and is left out.
- xlsxwriter formats, colours, column widths, `BytesIO` and `xl_col_to_name` are left out. Columns are zero-based indices, and a formula's row is its A1 number.
- Dash layout, callbacks, the `stored_data` cache, `build_tab_content`, plotly figures, `kpi_card` and `fmt_money` / percentage string formatting are UI and rendering only.
- Floating-point arithmetic and NaN are modelled as exact `real`s. Nothing is claimed about rounding.
- `generate_excel_file` turns an exception raised while fetching into its message. Only the one the source raises itself, the empty income statement, is modelled. Provider failures are not. A failure while the workbook is written is not caught there: it reaches the dashboard's generic handler, which shows "Processing failed". The model's periods are distinct and aligned, so the failures the source can hit while writing do not arise. One example is two provider columns with the same date: the lookup `hist_data.loc[date_idx, 'Revenue']` then returns a series, and its comparison with 0 raises.
- The evaluator's `SUM` gives `None` when its range holds a text cell, where a spreadsheet skips text. No result is affected, because every `SUM` range the generator writes spans input rows only.
- The spreadsheet evaluator is deliberately conservative: a reference to a cell that is not computed before the referring cell counts as an error. The evaluator order is Assumptions before Model, then column by column, then row by row. A real spreadsheet evaluates by dependency, so the evaluator is used only to show that every referenced cell is computed first.
- The historical Capex and Operating Cash Flow columns are normalised but do not appear in the Model sheet. Capex is used only in its driver row.
