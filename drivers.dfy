/** The six per-period driver ratios of the Assumptions sheet, each with its
    division-by-zero guard, as the historical columns of the driver rows
    show them. */
module Drivers {
  import opened Normalise

  datatype Driver = RevenueGrowth | CogsPct | SgaPct | TaxRate | DaPct | CapexPct

  /** The Assumptions rows, top to bottom. */
  const DriverRows: seq<Driver> := [RevenueGrowth, CogsPct, SgaPct, TaxRate, DaPct, CapexPct]

  function Name(d: Driver): string {
    match d
    case RevenueGrowth => "Revenue Growth %"
    case CogsPct => "COGS % of Revenue"
    case SgaPct => "SG&A % of Revenue"
    case TaxRate => "Tax Rate %"
    case DaPct => "D&A % of PP&E"
    case CapexPct => "Capex % of Revenue"
  }

  /** Tax rate used when pre-tax income is zero. */
  const DefaultTaxRate: real := 0.21

  function Abs(x: real): real {
    if x < 0.0 then -x else x
  }

  /** `num / den if den != 0 else 0`. */
  function Ratio(num: real, den: real): (q: real)
    ensures den == 0.0 ==> q == 0.0
    ensures den != 0.0 ==> q * den == num
  {
    if den != 0.0 then num / den else 0.0
  }

  /** Revenue - COGS - SG&A - Interest. */
  function PreTax(p: Period): real {
    p.revenue - p.cogs - p.sga - p.interest
  }

  /** The value written for driver `d` in historical column `c`. */
  function DriverValue(d: Driver, data: seq<Period>, c: nat): (v: real)
    requires c < |data|
    ensures d == RevenueGrowth && (c == 0 || data[c - 1].revenue == 0.0) ==> v == 0.0
    ensures d == RevenueGrowth && c > 0 && data[c - 1].revenue != 0.0 ==>
      (v + 1.0) * data[c - 1].revenue == data[c].revenue
    ensures d == CogsPct ==> if data[c].revenue == 0.0 then v == 0.0 else v * data[c].revenue == data[c].cogs
    ensures d == SgaPct ==> if data[c].revenue == 0.0 then v == 0.0 else v * data[c].revenue == data[c].sga
    ensures d == TaxRate ==> if PreTax(data[c]) == 0.0 then v == DefaultTaxRate else v * PreTax(data[c]) == data[c].tax
    ensures d == DaPct ==> if data[c].ppe == 0.0 then v == 0.0 else v * data[c].ppe == data[c].da
    ensures d == CapexPct ==> if data[c].revenue == 0.0 then v == 0.0 else v * data[c].revenue == Abs(data[c].capex)
  {
    var p := data[c];
    match d
    case RevenueGrowth =>
      if c > 0 then
        var curr := p.revenue;
        var prev := data[c - 1].revenue;
        if prev != 0.0 then curr / prev - 1.0 else 0.0
      else 0.0
    case CogsPct => Ratio(p.cogs, p.revenue)
    case SgaPct => Ratio(p.sga, p.revenue)
    case TaxRate =>
      var preTax := PreTax(p);
      if preTax != 0.0 then p.tax / preTax else DefaultTaxRate
    case DaPct => Ratio(p.da, p.ppe)
    case CapexPct => Ratio(Abs(p.capex), p.revenue)
  }
}
