/** The retry coordinator driven by the basic-stats extractor on concrete
    pages: the record built from the page is what the coordinator judges,
    retries and returns. */
module Scenarios {
  import opened Wrappers
  import opened Values
  import opened Registry
  import opened Extractors
  import opened Retry

  /** A top-ratios list whose P/E entry (position 4) never renders. */
  function NoPriceEarnings(l: Locator): (found: Option<string>)
  {
    if l == TopRatio(1) then Some("100")
    else if l == TopRatio(2) then Some("50")
    else if l == TopRatio(7) then Some("10")
    else if l == TopRatio(8) then Some("12")
    else None
  }

  /** The same list once the P/E entry has rendered. */
  function FullRatios(l: Locator): (found: Option<string>)
  {
    if l == TopRatio(4) then Some("35") else NoPriceEarnings(l)
  }

  /** The record the basic-stats extractor builds from a top-ratios list
      with the five given entries. */
  lemma BasicRecordOf(company: string, locate: Locate)
    ensures BuildRecord(BasicStatsFeatures, company, locate) == map[
      "company" := Str(company),
      "marketCap" := Cell(locate(TopRatio(1))),
      "currentPrice" := Cell(locate(TopRatio(2))),
      "stockPE" := Cell(locate(TopRatio(4))),
      "ROCE" := Cell(locate(TopRatio(7))),
      "ROE" := Cell(locate(TopRatio(8)))]
  {
    BasicStatsTable();
    TableRecord(BasicStatsFeatures, company, locate);
    var record := BuildRecord(BasicStatsFeatures, company, locate);
    assert record["marketCap"] == Cell(locate(TopRatio(1))) by { assert BasicStatsFeatures[0].name == "marketCap"; }
    assert record["currentPrice"] == Cell(locate(TopRatio(2))) by { assert BasicStatsFeatures[1].name == "currentPrice"; }
    assert record["stockPE"] == Cell(locate(TopRatio(4))) by { assert BasicStatsFeatures[2].name == "stockPE"; }
    assert record["ROCE"] == Cell(locate(TopRatio(7))) by { assert BasicStatsFeatures[3].name == "ROCE"; }
    assert record["ROE"] == Cell(locate(TopRatio(8))) by { assert BasicStatsFeatures[4].name == "ROE"; }
  }

  /** A page whose P/E never renders: all three attempts are made and the
      third attempt's record comes back with `stockPE` still `null`. */
  method PriceEarningsNeverRenders() returns (data: Option<Record>, calls: nat)
    ensures calls == 3
    ensures data == Some(map[
      "company" := Str("Voltas"),
      "marketCap" := Str("100"),
      "currentPrice" := Str("50"),
      "stockPE" := Null,
      "ROCE" := Str("10"),
      "ROE" := Str("12")])
  {
    var company := CompanyRef("Voltas", ProfileUrl("VOLTAS"));
    var page: Page := url => NoPriceEarnings;
    var extract: Attempts := k => Some(BuildRecord(BasicStatsFeatures, company.name, page(company.url)));
    BasicRecordOf(company.name, NoPriceEarnings);
    data, calls := ExtractWithRetries(extract, DefaultRetries);
    assert !Complete(extract(calls - 1)) by {
      assert extract(calls - 1).value["stockPE"] == Null;
    }
  }

  /** What the two loads of the top-ratios list give the extractor. */
  lemma LoadsJudged(company: string)
    ensures !Complete(Some(BuildRecord(BasicStatsFeatures, company, NoPriceEarnings)))
    ensures Complete(Some(BuildRecord(BasicStatsFeatures, company, FullRatios)))
    ensures BuildRecord(BasicStatsFeatures, company, FullRatios) == map[
      "company" := Str(company),
      "marketCap" := Str("100"),
      "currentPrice" := Str("50"),
      "stockPE" := Str("35"),
      "ROCE" := Str("10"),
      "ROE" := Str("12")]
  {
    BasicStatsTable();
    BuiltRecordComplete(BasicStatsFeatures, company, NoPriceEarnings);
    BuiltRecordComplete(BasicStatsFeatures, company, FullRatios);
    assert NoPriceEarnings(BasicStatsFeatures[2].locator).None?;
    BasicRecordOf(company, FullRatios);
  }

  /** A page whose P/E renders only from the second load on: the second
      attempt is complete, so it is returned and no third attempt is made. */
  method PriceEarningsRendersLate() returns (data: Option<Record>, calls: nat)
    ensures calls == 2
    ensures Complete(data)
    ensures data == Some(map[
      "company" := Str("Voltas"),
      "marketCap" := Str("100"),
      "currentPrice" := Str("50"),
      "stockPE" := Str("35"),
      "ROCE" := Str("10"),
      "ROE" := Str("12")])
  {
    var company := CompanyRef("Voltas", ProfileUrl("VOLTAS"));
    // the first load misses the P/E entry, later loads have it
    var extract: Attempts := k =>
      Some(BuildRecord(BasicStatsFeatures, company.name, if k == 0 then NoPriceEarnings else FullRatios));
    LoadsJudged(company.name);
    assert !Complete(extract(0)) && Complete(extract(1));
    data, calls := ExtractWithRetries(extract, DefaultRetries);
  }
}
