/** `generate_excel_file`: fetch and normalise the statements, then write the
    Assumptions and Model sheets; a ticker the provider does not know comes
    back as the error message instead of a workbook. */
module Generate {
  import opened Wrappers
  import opened Cells
  import opened Layout
  import opened Builder
  import opened ModelProperties
  import N = Normalise

  /** What a successful run hands back: the workbook and the table it was
      built from. */
  datatype Generated = Generated(workbook: Workbook, data: seq<N.Period>)

  /** `info.get('shortName', ticker)`: the name shown in the sheet titles. */
  function CompanyName(ticker: string, info: map<string, string>): string {
    if "shortName" in info then info["shortName"] else ticker
  }

  /** The statements `s` and the company `info` stand for what the provider
      returns for `ticker`. */
  method GenerateExcelFile(ticker: string, s: N.Statements, info: map<string, string>)
    returns (r: Result<Generated, string>)
    requires s.Valid()
    ensures r.Err? <==> |s.years| == 0 || |s.income| == 0
    ensures r.Err? ==> r.error == "Can't find " + ticker
    ensures r.Ok? ==> r.value.data == N.Normalised(s)
    ensures r.Ok? ==> r.value.workbook == BuiltWorkbook(N.Normalised(s), CompanyName(ticker, info))
    ensures r.Ok? ==> Laid(r.value.workbook, r.value.data)
  {
    var fetched := N.FetchCompanyData(ticker, s);
    if fetched.Err? {
      return Err(fetched.error.message);
    }
    var data := fetched.value;
    var name := CompanyName(ticker, info);
    var b := new WorkbookBuilder();
    b.WriteAssumptions(data, name);
    b.WriteModel(data, name);
    BuiltIsLaid(data, name);
    r := Ok(Generated(Workbook(b.assumptions, b.model), data));
  }
}
