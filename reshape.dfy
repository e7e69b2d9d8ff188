/** The reshape stage: one wide battle-performance record per company
    (fields suffixed by year) becomes three long rows, one per year from
    2022 to 2024, each with unsuffixed metrics and an explicit year. */
module Reshape {
  import opened Wrappers
  import opened Values
  import opened Extractors

  /** A long-form row. Field values are copied as they are, `null` and
      `undefined` included. */
  datatype BattleRow = BattleRow(
    company: JsValue,
    year: int,
    sales: JsValue,
    netProfit: JsValue,
    opm: JsValue,
    eps: JsValue)

  const FirstYear: nat := 2022
  const LastYear: nat := 2024

  /** The key of a metric for a year, as the template `${metric}${year}`. */
  function MetricKey(metric: string, year: nat): (key: string)
  {
    metric + DecimalString(year)
  }

  /** The row for one year of one wide record. */
  function YearRow(stat: Record, year: nat): (row: BattleRow)
  {
    BattleRow(
      Get(stat, "company"),
      year,
      Get(stat, MetricKey("sales", year)),
      Get(stat, MetricKey("netProfit", year)),
      Get(stat, MetricKey("opm", year)),
      Get(stat, MetricKey("eps", year)))
  }

  /** The rows of one record, years ascending. */
  function CompanyRows(stat: Record): (rows: seq<BattleRow>)
  {
    seq(LastYear - FirstYear + 1, j requires 0 <= j <= LastYear - FirstYear => YearRow(stat, FirstYear + j))
  }

  /** The reshaped collection: each record's rows, in input order. */
  function Remap(stats: seq<Record>): (rows: seq<BattleRow>)
  {
    if stats == [] then []
    else Remap(stats[..|stats| - 1]) + CompanyRows(stats[|stats| - 1])
  }

  /** `remapBattleStats`: for each record, push one row per year. */
  method RemapBattleStats(battleStats: seq<Record>) returns (remappedData: seq<BattleRow>)
    ensures remappedData == Remap(battleStats)
    ensures |remappedData| == 3 * |battleStats|
    ensures forall k :: 0 <= k < |remappedData| ==>
      remappedData[k] == YearRow(battleStats[k / 3], FirstYear + k % 3)
  {
    remappedData := [];
    var i := 0;
    while i < |battleStats|
      invariant 0 <= i <= |battleStats|
      invariant remappedData == Remap(battleStats[..i])
    {
      var stat := battleStats[i];
      var companyName := Get(stat, "company");
      var year: nat := FirstYear;
      while year <= LastYear
        invariant FirstYear <= year <= LastYear + 1
        invariant remappedData == Remap(battleStats[..i]) + CompanyRows(stat)[..year - FirstYear]
      {
        remappedData := remappedData + [BattleRow(
          companyName,
          year,
          Get(stat, MetricKey("sales", year)),
          Get(stat, MetricKey("netProfit", year)),
          Get(stat, MetricKey("opm", year)),
          Get(stat, MetricKey("eps", year)))];
        assert CompanyRows(stat)[..year + 1 - FirstYear]
          == CompanyRows(stat)[..year - FirstYear] + [YearRow(stat, year)];
        year := year + 1;
      }
      assert battleStats[..i + 1][..i] == battleStats[..i];
      i := i + 1;
    }
    assert battleStats[..i] == battleStats;
    RemapLength(battleStats);
    forall k | 0 <= k < |remappedData|
      ensures remappedData[k] == YearRow(battleStats[k / 3], FirstYear + k % 3)
    {
      RemapAt(battleStats, k / 3, k % 3);
    }
  }

  /** Three rows per record, always. */
  lemma {:induction false} RemapLength(stats: seq<Record>)
    ensures |Remap(stats)| == 3 * |stats|
  {
    if stats != [] {
      RemapLength(stats[..|stats| - 1]);
    }
  }

  /** Row 3i + j is record i's row for year 2022 + j: its company and its
      four metrics are the record's `company` and `<metric><year>` values,
      whatever they are (`null` stays `null`). */
  lemma {:induction false} RemapAt(stats: seq<Record>, i: nat, j: nat)
    requires i < |stats| && j < 3
    ensures 3 * i + j < |Remap(stats)|
    ensures Remap(stats)[3 * i + j] == YearRow(stats[i], FirstYear + j)
  {
    var init := stats[..|stats| - 1];
    var rows := CompanyRows(stats[|stats| - 1]);
    RemapLength(init);
    assert Remap(stats) == Remap(init) + rows;
    if i < |stats| - 1 {
      assert init[i] == stats[i];
      RemapAt(init, i, j);
    } else {
      assert Remap(stats)[3 * i + j] == rows[j];
    }
  }

  /** Reshaping is compositional: the rows of a concatenation are the rows
      of each part, in order, so input order is kept. */
  lemma {:induction false} RemapAppend(a: seq<Record>, b: seq<Record>)
    ensures Remap(a + b) == Remap(a) + Remap(b)
    decreases |b|
  {
    if b == [] {
      assert a + b == a;
    } else {
      var b' := b[..|b| - 1];
      assert (a + b)[..|a + b| - 1] == a + b';
      RemapAppend(a, b');
    }
  }

  /** The year texts the template produces for the three years. */
  lemma YearTexts()
    ensures DecimalString(2022) == "2022"
    ensures DecimalString(2023) == "2023"
    ensures DecimalString(2024) == "2024"
  {
  }

  /** The twelve wide keys the reshape reads. */
  lemma MetricKeys()
    ensures MetricKey("sales", 2022) == "sales2022" && MetricKey("netProfit", 2022) == "netProfit2022"
    ensures MetricKey("opm", 2022) == "opm2022" && MetricKey("eps", 2022) == "eps2022"
    ensures MetricKey("sales", 2023) == "sales2023" && MetricKey("netProfit", 2023) == "netProfit2023"
    ensures MetricKey("opm", 2023) == "opm2023" && MetricKey("eps", 2023) == "eps2023"
    ensures MetricKey("sales", 2024) == "sales2024" && MetricKey("netProfit", 2024) == "netProfit2024"
    ensures MetricKey("opm", 2024) == "opm2024" && MetricKey("eps", 2024) == "eps2024"
  {
    YearTexts();
  }

  /** The inverse reshape: one company's three rows, years ascending,
      folded back into a wide record. */
  function Widen(rows: seq<BattleRow>): (stat: Record)
    requires |rows| == 3
  {
    map[
      "company" := rows[0].company,
      "sales2022" := rows[0].sales, "netProfit2022" := rows[0].netProfit,
      "opm2022" := rows[0].opm, "eps2022" := rows[0].eps,
      "sales2023" := rows[1].sales, "netProfit2023" := rows[1].netProfit,
      "opm2023" := rows[1].opm, "eps2023" := rows[1].eps,
      "sales2024" := rows[2].sales, "netProfit2024" := rows[2].netProfit,
      "opm2024" := rows[2].opm, "eps2024" := rows[2].eps]
  }

  /** The keys of a wide battle record. */
  function WideKeys(): (keys: set<string>)
  {
    {"company",
     "sales2022", "netProfit2022", "opm2022", "eps2022",
     "sales2023", "netProfit2023", "opm2023", "eps2023",
     "sales2024", "netProfit2024", "opm2024", "eps2024"}
  }

  /** The three rows of a record, with the wide keys written out. */
  lemma CompanyRowsLiteral(stat: Record)
    ensures CompanyRows(stat) == [
      BattleRow(Get(stat, "company"), 2022, Get(stat, "sales2022"), Get(stat, "netProfit2022"),
        Get(stat, "opm2022"), Get(stat, "eps2022")),
      BattleRow(Get(stat, "company"), 2023, Get(stat, "sales2023"), Get(stat, "netProfit2023"),
        Get(stat, "opm2023"), Get(stat, "eps2023")),
      BattleRow(Get(stat, "company"), 2024, Get(stat, "sales2024"), Get(stat, "netProfit2024"),
        Get(stat, "opm2024"), Get(stat, "eps2024"))]
  {
    MetricKeys();
    var rows := CompanyRows(stat);
    assert |rows| == 3;
    assert rows[0] == YearRow(stat, 2022);
    assert rows[1] == YearRow(stat, 2023);
    assert rows[2] == YearRow(stat, 2024);
  }

  /** A record with exactly the wide keys, written out key by key. */
  lemma WideRecordDisplay(stat: Record)
    requires stat.Keys == WideKeys()
    ensures stat == map[
      "company" := stat["company"],
      "sales2022" := stat["sales2022"], "netProfit2022" := stat["netProfit2022"],
      "opm2022" := stat["opm2022"], "eps2022" := stat["eps2022"],
      "sales2023" := stat["sales2023"], "netProfit2023" := stat["netProfit2023"],
      "opm2023" := stat["opm2023"], "eps2023" := stat["eps2023"],
      "sales2024" := stat["sales2024"], "netProfit2024" := stat["netProfit2024"],
      "opm2024" := stat["opm2024"], "eps2024" := stat["eps2024"]]
  {
  }

  /** Reshaping loses nothing: a record with exactly the wide keys is
      recovered from its three rows. */
  lemma WidenCompanyRows(stat: Record)
    requires stat.Keys == WideKeys()
    ensures Widen(CompanyRows(stat)) == stat
  {
    CompanyRowsLiteral(stat);
    WideRecordDisplay(stat);
  }

  /** And the rows of a widened company are the rows themselves, when
      they share one company and run 2022, 2023, 2024. */
  lemma CompanyRowsWiden(rows: seq<BattleRow>)
    requires |rows| == 3
    requires rows[1].company == rows[0].company && rows[2].company == rows[0].company
    requires rows[0].year == 2022 && rows[1].year == 2023 && rows[2].year == 2024
    ensures CompanyRows(Widen(rows)) == rows
  {
    MetricKeys();
    var w := Widen(rows);
    assert YearRow(w, 2022) == rows[0];
    assert YearRow(w, 2023) == rows[1];
    assert YearRow(w, 2024) == rows[2];
  }

  /** The battle-performance extractor writes exactly the wide keys. */
  lemma BattleRecordKeys(company: string, locate: Locate)
    ensures BuildRecord(BattlePerformanceFeatures, company, locate).Keys == WideKeys()
  {
    BattlePerformanceTable();
    TableRecord(BattlePerformanceFeatures, company, locate);
    NamesOfTable(BattlePerformanceFeatures, [
      "sales2022", "netProfit2022", "opm2022", "eps2022",
      "sales2023", "netProfit2023", "opm2023", "eps2023",
      "sales2024", "netProfit2024", "opm2024", "eps2024"]);
  }

  /** So a record the extractor builds is recovered from its three rows:
      the reshape loses nothing the extractor scraped. */
  lemma BattleRecordSurvivesReshape(company: string, locate: Locate)
    ensures Widen(CompanyRows(BuildRecord(BattlePerformanceFeatures, company, locate)))
      == BuildRecord(BattlePerformanceFeatures, company, locate)
  {
    BattleRecordKeys(company, locate);
    WidenCompanyRows(BuildRecord(BattlePerformanceFeatures, company, locate));
  }

  /** The battle table, read as years: features 4j to 4j + 3 hold the
      four metrics of year 2022 + j, at column 4 - j from the row's end. */
  lemma BattleFeaturesByYear(j: nat)
    requires j < 3
    ensures BattlePerformanceFeatures[4 * j] == Feature(MetricKey("sales", FirstYear + j), ProfitLossCell(1, 4 - j))
    ensures BattlePerformanceFeatures[4 * j + 1] == Feature(MetricKey("netProfit", FirstYear + j), ProfitLossCell(10, 4 - j))
    ensures BattlePerformanceFeatures[4 * j + 2] == Feature(MetricKey("opm", FirstYear + j), ProfitLossCell(4, 4 - j))
    ensures BattlePerformanceFeatures[4 * j + 3] == Feature(MetricKey("eps", FirstYear + j), ProfitLossCell(11, 4 - j))
  {
    MetricKeys();
  }

  /** End to end for one company: the battle-performance extractor
      followed by the reshape gives, for year 2022 + j, the cells of the
      profit-and-loss rows 1 (sales), 10 (net profit), 4 (OPM) and
      11 (EPS) at column 4 - j from the end. */
  lemma BattleRowsFromPage(company: string, locate: Locate, j: nat)
    requires j < 3
    ensures Remap([BuildRecord(BattlePerformanceFeatures, company, locate)])[j] == BattleRow(
      Str(company),
      FirstYear + j,
      Cell(locate(ProfitLossCell(1, 4 - j))),
      Cell(locate(ProfitLossCell(10, 4 - j))),
      Cell(locate(ProfitLossCell(4, 4 - j))),
      Cell(locate(ProfitLossCell(11, 4 - j))))
  {
    var record := BuildRecord(BattlePerformanceFeatures, company, locate);
    BattlePerformanceTable();
    TableRecord(BattlePerformanceFeatures, company, locate);
    BattleFeaturesByYear(j);
    RemapAt([record], 0, j);
    assert [record][0] == record;
  }
}
