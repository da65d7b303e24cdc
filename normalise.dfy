/** Normalisation of the provider's statement tables into one row of named
    figures per fiscal period: the alias lookup `get_col`, the two residual
    "plug" lines and the "ticker not found" failure of `fetch_company_data`. */
module Normalise {
  import opened Wrappers

  /** Calendar year of a period's date. Pandas timestamps span the years
      1677 to 2262, so a year is always written with four digits. */
  type Year = y: int | 1677 <= y <= 2262 witness 2000

  /** The normalised columns of the table built by `fetch_company_data`. */
  datatype Field =
    | Revenue | Cogs | Sga | Interest | Tax | NetIncome
    | Cash | Ar | Ppe | TotalAssets | Ap | Debt | TotalLiab | ShareCapital | RetainedEarnings
    | OtherAssets | TotalEquity | OtherLiab
    | Da | Capex | OperatingCashFlow

  /** One fiscal period of the normalised table (a StatementRow). */
  datatype Period = Period(
    year: Year,
    revenue: real, cogs: real, sga: real, interest: real, tax: real, netIncome: real,
    cash: real, ar: real, ppe: real, totalAssets: real, ap: real, debt: real,
    totalLiab: real, shareCapital: real, retainedEarnings: real,
    otherAssets: real, totalEquity: real, otherLiab: real,
    da: real, capex: real, operatingCashFlow: real)
  {
    /** The figure stored under a column name. */
    function Get(f: Field): real {
      match f
      case Revenue => revenue
      case Cogs => cogs
      case Sga => sga
      case Interest => interest
      case Tax => tax
      case NetIncome => netIncome
      case Cash => cash
      case Ar => ar
      case Ppe => ppe
      case TotalAssets => totalAssets
      case Ap => ap
      case Debt => debt
      case TotalLiab => totalLiab
      case ShareCapital => shareCapital
      case RetainedEarnings => retainedEarnings
      case OtherAssets => otherAssets
      case TotalEquity => totalEquity
      case OtherLiab => otherLiab
      case Da => da
      case Capex => capex
      case OperatingCashFlow => operatingCashFlow
    }
  }

  /** A provider column, one entry per period; None is a missing (NaN) entry. */
  type Column = seq<Option<real>>

  /** A provider table (one statement, transposed): column name to column. */
  type Frame = map<string, Column>

  /** Every column of the table has one entry per period. */
  predicate Shaped(df: Frame, n: nat) {
    forall k :: k in df ==> |df[k]| == n
  }

  /** `fillna(0)`: a missing entry reads as zero. */
  function FillNa(col: Column): (r: seq<real>)
    ensures |r| == |col|
    ensures forall i :: 0 <= i < |col| && col[i].Some? ==> r[i] == col[i].value
    ensures forall i :: 0 <= i < |col| && col[i].None? ==> r[i] == 0.0
  {
    seq(|col|, i requires 0 <= i < |col| => if col[i].Some? then col[i].value else 0.0)
  }

  function Zeros(n: nat): (r: seq<real>)
    ensures |r| == n
  {
    seq(n, _ => 0.0)
  }

  /** `get_col`: tries the aliases in order and returns the column of the
      first one the table has, with missing entries read as zero, or a column
      of zeros when the table has none of them (see GetColFirstMatch). */
  function GetCol(df: Frame, n: nat, keys: seq<string>): (col: seq<real>)
    requires Shaped(df, n)
    ensures |col| == n
  {
    if keys == [] then Zeros(n)
    else if keys[0] in df then FillNa(df[keys[0]])
    else GetCol(df, n, keys[1..])
  }

  /** The lookup takes the first alias present, and only it; with no alias
      present the column is all zeros. */
  lemma {:induction false} GetColFirstMatch(df: Frame, n: nat, keys: seq<string>)
    requires Shaped(df, n)
    ensures forall j :: 0 <= j < |keys| && keys[j] in df && (forall i :: 0 <= i < j ==> keys[i] !in df) ==>
      GetCol(df, n, keys) == FillNa(df[keys[j]])
    ensures (forall j :: 0 <= j < |keys| ==> keys[j] !in df) ==> GetCol(df, n, keys) == Zeros(n)
  {
    if keys != [] && keys[0] !in df {
      GetColFirstMatch(df, n, keys[1..]);
      assert forall j :: 1 <= j < |keys| ==> keys[1..][j - 1] == keys[j];
    }
  }

  /** The three statement tables of the provider. */
  datatype Statement = IncomeStatement | BalanceSheet | CashFlowStatement

  /** What the provider returns for a ticker: the period dates (as years, in
      ascending order) and the three tables over those periods. */
  datatype Statements = Statements(years: seq<Year>, income: Frame, balance: Frame, cashflow: Frame)
  {
    predicate Valid() {
      Shaped(income, |years|) && Shaped(balance, |years|) && Shaped(cashflow, |years|)
    }

    function Table(st: Statement): Frame {
      match st
      case IncomeStatement => income
      case BalanceSheet => balance
      case CashFlowStatement => cashflow
    }
  }

  // Provider aliases of each looked-up column, in the order they are tried.
  const RevenueKeys: seq<string> := ["Total Revenue", "TotalRevenue"]
  const CogsKeys: seq<string> := ["Cost Of Revenue", "CostOfRevenue"]
  const SgaKeys: seq<string> := ["Selling General And Administration", "Operating Expense"]
  const InterestKeys: seq<string> := ["Interest Expense", "InterestExpense"]
  const TaxKeys: seq<string> := ["Tax Provision", "TaxProvision"]
  const NetIncomeKeys: seq<string> := ["Net Income", "NetIncome"]
  const CashKeys: seq<string> := ["Cash And Cash Equivalents", "CashAndCashEquivalents"]
  const ArKeys: seq<string> := ["Receivables", "AccountsReceivable", "NetReceivables"]
  const PpeKeys: seq<string> := ["Net PPE", "NetPPE", "Gross PPE"]
  const TotalAssetsKeys: seq<string> := ["Total Assets", "TotalAssets"]
  const ApKeys: seq<string> := ["Accounts Payable", "AccountsPayable", "Payables"]
  const DebtKeys: seq<string> := ["Total Debt", "TotalDebt", "Long Term Debt"]
  const TotalLiabKeys: seq<string> := ["Total Liabilities Net Minority Interest", "TotalLiabilities"]
  const ShareCapitalKeys: seq<string> := ["Common Stock", "CommonStock", "ShareIssued"]
  const RetainedEarningsKeys: seq<string> := ["Retained Earnings", "RetainedEarnings"]
  const TotalEquityKeys: seq<string> := ["Stockholders Equity", "StockholdersEquity"]
  const DaKeys: seq<string> := ["Depreciation And Amortization", "Depreciation"]
  const CapexKeys: seq<string> := ["Capital Expenditure", "CapitalExpenditure"]
  const OperatingCashFlowKeys: seq<string> := ["Operating Cash Flow", "OperatingCashFlow"]

  /** Where a column is looked up: the table and its provider aliases, in the
      order they are tried. The two plug columns are computed instead. */
  function Aliases(f: Field): Option<(Statement, seq<string>)> {
    match f
    case Revenue => Some((IncomeStatement, RevenueKeys))
    case Cogs => Some((IncomeStatement, CogsKeys))
    case Sga => Some((IncomeStatement, SgaKeys))
    case Interest => Some((IncomeStatement, InterestKeys))
    case Tax => Some((IncomeStatement, TaxKeys))
    case NetIncome => Some((IncomeStatement, NetIncomeKeys))
    case Cash => Some((BalanceSheet, CashKeys))
    case Ar => Some((BalanceSheet, ArKeys))
    case Ppe => Some((BalanceSheet, PpeKeys))
    case TotalAssets => Some((BalanceSheet, TotalAssetsKeys))
    case Ap => Some((BalanceSheet, ApKeys))
    case Debt => Some((BalanceSheet, DebtKeys))
    case TotalLiab => Some((BalanceSheet, TotalLiabKeys))
    case ShareCapital => Some((BalanceSheet, ShareCapitalKeys))
    case RetainedEarnings => Some((BalanceSheet, RetainedEarningsKeys))
    case OtherAssets => None
    case TotalEquity => Some((BalanceSheet, TotalEquityKeys))
    case OtherLiab => None
    case Da => Some((CashFlowStatement, DaKeys))
    case Capex => Some((CashFlowStatement, CapexKeys))
    case OperatingCashFlow => Some((CashFlowStatement, OperatingCashFlowKeys))
  }

  /** The looked-up column of a field; the two plugs have no aliases and
      are never looked up. */
  function LookedUp(s: Statements, f: Field): (col: seq<real>)
    requires s.Valid()
    ensures |col| == |s.years|
  {
    match Aliases(f)
    case Some((st, keys)) => GetCol(s.Table(st), |s.years|, keys)
    case None => Zeros(|s.years|)
  }

  /** Total Assets is made up of Cash, AR, PP&E and Other Assets. */
  predicate AssetsAddUp(p: Period) {
    p.cash + p.ar + p.ppe + p.otherAssets == p.totalAssets
  }

  /** Total Liabilities is made up of AP, Debt and Other Liabilities. */
  predicate LiabilitiesAddUp(p: Period) {
    p.ap + p.debt + p.otherLiab == p.totalLiab
  }

  /** Period `i` of the normalised table. */
  function NormalisePeriod(s: Statements, i: nat): (p: Period)
    requires s.Valid() && i < |s.years|
    ensures AssetsAddUp(p) && LiabilitiesAddUp(p)
  {
    var cash := LookedUp(s, Cash)[i];
    var ar := LookedUp(s, Ar)[i];
    var ppe := LookedUp(s, Ppe)[i];
    var totalAssets := LookedUp(s, TotalAssets)[i];
    var ap := LookedUp(s, Ap)[i];
    var debt := LookedUp(s, Debt)[i];
    var totalLiab := LookedUp(s, TotalLiab)[i];
    Period(
      s.years[i],
      LookedUp(s, Revenue)[i], LookedUp(s, Cogs)[i], LookedUp(s, Sga)[i],
      LookedUp(s, Interest)[i], LookedUp(s, Tax)[i], LookedUp(s, NetIncome)[i],
      cash, ar, ppe, totalAssets, ap, debt, totalLiab,
      LookedUp(s, ShareCapital)[i], LookedUp(s, RetainedEarnings)[i],
      totalAssets - (cash + ar + ppe),
      LookedUp(s, TotalEquity)[i],
      totalLiab - (ap + debt),
      LookedUp(s, Da)[i], LookedUp(s, Capex)[i], LookedUp(s, OperatingCashFlow)[i])
  }

  /** Every looked-up figure of a period is the value its column lookup gives. */
  lemma PeriodField(s: Statements, i: nat, f: Field)
    requires s.Valid() && i < |s.years| && Aliases(f).Some?
    ensures NormalisePeriod(s, i).Get(f) == LookedUp(s, f)[i]
  {
    match f
    case Revenue =>
    case Cogs =>
    case Sga =>
    case Interest =>
    case Tax =>
    case NetIncome =>
    case Cash =>
    case Ar =>
    case Ppe =>
    case TotalAssets =>
    case Ap =>
    case Debt =>
    case TotalLiab =>
    case ShareCapital =>
    case RetainedEarnings =>
    case TotalEquity =>
    case Da =>
    case Capex =>
    case OperatingCashFlow =>
  }

  /** The normalised table: one period per provider date, in the same order. */
  function Normalised(s: Statements): (data: seq<Period>)
    requires s.Valid()
    ensures |data| == |s.years|
    ensures forall i :: 0 <= i < |data| ==> data[i].year == s.years[i]
    ensures forall i :: 0 <= i < |data| ==> data[i] == NormalisePeriod(s, i)
    ensures forall i :: 0 <= i < |data| ==> AssetsAddUp(data[i]) && LiabilitiesAddUp(data[i])
  {
    seq(|s.years|, i requires 0 <= i < |s.years| => NormalisePeriod(s, i))
  }

  datatype FetchError = DataUnavailable(message: string)

  /** `fetch_company_data` without the provider call: an empty income
      statement means the ticker is unknown. */
  function FetchCompanyData(ticker: string, s: Statements): (r: Result<seq<Period>, FetchError>)
    requires s.Valid()
    ensures r.Err? <==> |s.years| == 0 || |s.income| == 0
    ensures r.Err? ==> r.error == DataUnavailable("Can't find " + ticker)
    ensures r.Ok? ==> |r.value| == |s.years| > 0 && r.value == Normalised(s)
  {
    if |s.years| == 0 || |s.income| == 0 then Err(DataUnavailable("Can't find " + ticker))
    else Ok(Normalised(s))
  }
}
