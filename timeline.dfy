/** The period header of both sheets: historical labels `YYYYA` followed by
    five projected labels `YYYYE`, each year read from the period index. */
module Timeline {
  import opened Normalise

  /** Number of projected periods. */
  const ProjCols: nat := 5

  predicate IsDigit(ch: char) {
    '0' <= ch <= '9'
  }

  predicate AllDigits(s: string) {
    forall k :: 0 <= k < |s| ==> IsDigit(s[k])
  }

  function DigitChar(d: nat): (ch: char)
    requires d < 10
    ensures IsDigit(ch)
  {
    ('0' as int + d) as char
  }

  function DigitValue(ch: char): nat
    requires IsDigit(ch)
  {
    ch as int - '0' as int
  }

  /** `str(n)`: the decimal digits of n, without leading zeros. */
  function NatToString(n: nat): (s: string)
    ensures |s| >= 1 && AllDigits(s)
    ensures s[0] == '0' <==> n == 0
    ensures |s| > 1 ==> s[0] != '0'
  {
    if n < 10 then [DigitChar(n)] else NatToString(n / 10) + [DigitChar(n % 10)]
  }

  /** `int(s)` for a string of decimal digits. */
  function ParseNat(s: string): nat
    requires AllDigits(s)
  {
    if s == [] then 0 else ParseNat(s[..|s| - 1]) * 10 + DigitValue(s[|s| - 1])
  }

  /** Parsing what NatToString writes gives the number back. */
  lemma {:induction false} ParseNatToString(n: nat)
    ensures ParseNat(NatToString(n)) == n
  {
    var s := NatToString(n);
    if n >= 10 {
      ParseNatToString(n / 10);
      assert s[..|s| - 1] == NatToString(n / 10);
    }
  }

  /** A year of the period index has four digits. */
  lemma FourDigits(y: Year)
    ensures |NatToString(y)| == 4
  {
    assert |NatToString(y / 1000)| == 1;
    assert |NatToString(y / 100)| == 2;
    assert |NatToString(y / 10)| == 3;
  }

  /** `hist_years`: each period's year followed by "A". */
  function HistLabels(years: seq<Year>): (labels: seq<string>)
    ensures |labels| == |years|
  {
    seq(|years|, i requires 0 <= i < |years| => NatToString(years[i]) + "A")
  }

  /** `proj_years`: the year read back from the first four characters of the
      last historical label, plus 1 to 5, each followed by "E". */
  function ProjLabels(hist: seq<string>): (labels: seq<string>)
    requires |hist| > 0 && |hist[|hist| - 1]| >= 4 && AllDigits(hist[|hist| - 1][..4])
    ensures |labels| == ProjCols
  {
    var base := ParseNat(hist[|hist| - 1][..4]);
    seq(ProjCols, i requires 0 <= i < ProjCols => NatToString(base + i + 1) + "E")
  }

  /** `all_years`: the historical labels followed by the projected ones. */
  function AllYears(years: seq<Year>): (labels: seq<string>)
    requires |years| > 0
    ensures |labels| == |years| + ProjCols
  {
    var hist := HistLabels(years);
    var last := years[|years| - 1];
    FourDigits(last);
    assert hist[|hist| - 1][..4] == NatToString(last);
    hist + ProjLabels(hist)
  }

  /** The timeline has one label per period plus five; historical labels
      are the years in input order with "A"; the k-th projected label (k from
      1 to 5) is the last historical year plus k with "E". */
  lemma TimelineShape(years: seq<Year>)
    requires |years| > 0
    ensures |AllYears(years)| == |years| + ProjCols
    ensures forall i :: 0 <= i < |years| ==> AllYears(years)[i] == NatToString(years[i]) + "A"
    ensures forall j :: |years| <= j < |years| + ProjCols ==>
      AllYears(years)[j] == NatToString(years[|years| - 1] + (j - |years| + 1)) + "E"
  {
    var n := |years|;
    var hist := HistLabels(years);
    FourDigits(years[n - 1]);
    assert hist[n - 1][..4] == NatToString(years[n - 1]);
    ParseNatToString(years[n - 1]);
  }
}
