/** The headline ratios `update_dashboard` shows for the latest period, each
    guarded against a zero denominator. */
module Dashboard {
  import opened Normalise
  import D = Drivers

  datatype Kpis = Kpis(revenueGrowth: real, netMargin: real, debtToEquity: real)

  /** The period before the latest one, or the latest one itself when the
      table has a single period. */
  function Previous(data: seq<Period>): Period
    requires |data| > 0
  {
    if |data| > 1 then data[|data| - 2] else data[|data| - 1]
  }

  /** The three ratios of the latest period. */
  function KpisOf(data: seq<Period>): (k: Kpis)
    requires |data| > 0
    ensures var latest, prev := data[|data| - 1], Previous(data);
      (prev.revenue == 0.0 ==> k.revenueGrowth == 0.0) &&
      (prev.revenue != 0.0 ==> (k.revenueGrowth + 1.0) * prev.revenue == latest.revenue)
    ensures var latest := data[|data| - 1];
      if latest.revenue == 0.0 then k.netMargin == 0.0 else k.netMargin * latest.revenue == latest.netIncome
    ensures var latest := data[|data| - 1];
      if latest.totalEquity == 0.0 then k.debtToEquity == 0.0
      else k.debtToEquity * latest.totalEquity == latest.debt
  {
    var latest, prev := data[|data| - 1], Previous(data);
    Kpis(D.Ratio(latest.revenue - prev.revenue, prev.revenue),
         D.Ratio(latest.netIncome, latest.revenue),
         D.Ratio(latest.debt, latest.totalEquity))
  }

  /** With a single period there is no year-over-year growth. */
  lemma SinglePeriodNoGrowth(data: seq<Period>)
    requires |data| == 1
    ensures KpisOf(data).revenueGrowth == 0.0
  {
    var p := data[0];
    if p.revenue != 0.0 {
      assert (KpisOf(data).revenueGrowth + 1.0) * p.revenue == p.revenue;
      assert KpisOf(data).revenueGrowth * p.revenue == 0.0;
    }
  }

  /** Growth is the ratio of the two revenues less one. */
  lemma GrowthIsRevenueRatio(data: seq<Period>)
    requires |data| > 0 && Previous(data).revenue != 0.0
    ensures KpisOf(data).revenueGrowth == data[|data| - 1].revenue / Previous(data).revenue - 1.0
  {
    CancelDivision(KpisOf(data).revenueGrowth + 1.0, Previous(data).revenue, data[|data| - 1].revenue);
  }

  lemma CancelDivision(a: real, b: real, x: real)
    requires b != 0.0 && a * b == x
    ensures x / b == a
  {
  }
}
