/** The three field extractors. Each walks a fixed table of features,
    asks the loaded page for one element per feature and records its text,
    or `null` when nothing matched, under the feature's name; the company's
    display name is then added under `company`.

    The browser is abstracted: a page is a function from a URL to a locator,
    and a locator maps the numeric selector parameters of one feature to the
    text of the element found there, if any. */
module Extractors {
  import opened Wrappers
  import opened Values
  import opened Registry

  /** Where a feature's element sits on a company page. Only the numeric
      parameters of the CSS selectors are kept. */
  datatype Locator =
    | TopRatio(position: nat)                  // the position-th entry of the top-ratios list
    | BalanceSheetRow(row: nat)                // the last cell of a balance-sheet row
    | ProfitLossCell(row: nat, fromEnd: nat)   // a profit-and-loss cell counted from the row's end

  datatype Feature = Feature(name: string, locator: Locator)

  /** The DOM of the page after navigation: what each locator finds. */
  type Locate = Locator -> Option<string>

  /** Navigation: the DOM that loading a URL yields. */
  type Page = string -> Locate

  const BasicStatsFeatures: seq<Feature> := [
    Feature("marketCap", TopRatio(1)),
    Feature("currentPrice", TopRatio(2)),
    Feature("stockPE", TopRatio(4)),
    Feature("ROCE", TopRatio(7)),
    Feature("ROE", TopRatio(8))
  ]

  const ItemInventoryFeatures: seq<Feature> := [
    Feature("reserves", BalanceSheetRow(2)),
    Feature("borrowings", BalanceSheetRow(3)),
    Feature("totalLiabilities", BalanceSheetRow(5)),
    Feature("fixedAssets", BalanceSheetRow(6)),
    Feature("investments", BalanceSheetRow(8)),
    Feature("totalAssets", BalanceSheetRow(10))
  ]

  const BattlePerformanceFeatures: seq<Feature> := [
    Feature("sales2022", ProfitLossCell(1, 4)),
    Feature("netProfit2022", ProfitLossCell(10, 4)),
    Feature("opm2022", ProfitLossCell(4, 4)),
    Feature("eps2022", ProfitLossCell(11, 4)),
    Feature("sales2023", ProfitLossCell(1, 3)),
    Feature("netProfit2023", ProfitLossCell(10, 3)),
    Feature("opm2023", ProfitLossCell(4, 3)),
    Feature("eps2023", ProfitLossCell(11, 3)),
    Feature("sales2024", ProfitLossCell(1, 2)),
    Feature("netProfit2024", ProfitLossCell(10, 2)),
    Feature("opm2024", ProfitLossCell(4, 2)),
    Feature("eps2024", ProfitLossCell(11, 2))
  ]

  function Names(features: seq<Feature>): (names: set<string>)
  {
    set i | 0 <= i < |features| :: features[i].name
  }

  /** Feature i is the last one with its name, so its value is the one
      that survives in the dictionary. */
  predicate LastWithName(features: seq<Feature>, i: int)
    requires 0 <= i < |features|
  {
    forall j :: i < j < |features| ==> features[j].name != features[i].name
  }

  predicate DistinctNames(features: seq<Feature>)
  {
    forall i, j :: 0 <= i < j < |features| ==> features[i].name != features[j].name
  }

  /** The dictionary that the feature loop leaves behind: each feature in
      turn stores its cell under its name, a later feature overwriting an
      earlier one of the same name. */
  function FeatureValues(features: seq<Feature>, locate: Locate): (values: map<string, JsValue>)
  {
    if features == [] then map[]
    else
      var last := features[|features| - 1];
      FeatureValues(features[..|features| - 1], locate)[last.name := Cell(locate(last.locator))]
  }

  /** The record an extractor returns: `{company: name, ...featureValues}`.
      The spread comes second, so a feature named `company` would win. */
  function BuildRecord(features: seq<Feature>, company: string, locate: Locate): (record: Record)
  {
    map["company" := Str(company)] + FeatureValues(features, locate)
  }

  /** The dictionary holds exactly the features' names. */
  lemma {:induction false} FeatureValuesKeys(features: seq<Feature>, locate: Locate)
    ensures FeatureValues(features, locate).Keys == Names(features)
  {
    if features != [] {
      var init := features[..|features| - 1];
      FeatureValuesKeys(init, locate);
      assert Names(features) == Names(init) + {features[|features| - 1].name} by {
        forall n | n in Names(features) ensures n in Names(init) + {features[|features| - 1].name} {
          var i :| 0 <= i < |features| && features[i].name == n;
          if i < |features| - 1 { assert init[i] == features[i]; }
        }
        forall n | n in Names(init) ensures n in Names(features) {
          var i :| 0 <= i < |init| && init[i].name == n;
          assert features[i] == init[i];
        }
      }
    }
  }

  /** The value stored under a feature's name is that feature's cell,
      provided no later feature reuses the name: `null` exactly when the
      locator found nothing, otherwise the found text. */
  lemma {:induction false} FeatureValuesAt(features: seq<Feature>, locate: Locate, i: int)
    requires 0 <= i < |features| && LastWithName(features, i)
    ensures features[i].name in FeatureValues(features, locate)
    ensures FeatureValues(features, locate)[features[i].name] == Cell(locate(features[i].locator))
  {
    var init := features[..|features| - 1];
    if i < |features| - 1 {
      assert init[i] == features[i];
      FeatureValuesAt(init, locate, i);
    }
  }

  /** A record built from a table with distinct names is complete exactly
      when every locator of the table found an element. */
  lemma BuiltRecordComplete(features: seq<Feature>, company: string, locate: Locate)
    requires DistinctNames(features)
    ensures Complete(Some(BuildRecord(features, company, locate))) <==>
      forall i :: 0 <= i < |features| ==> locate(features[i].locator).Some?
  {
    var values := FeatureValues(features, locate);
    var record := BuildRecord(features, company, locate);
    FeatureValuesKeys(features, locate);
    forall i | 0 <= i < |features|
      ensures features[i].name in values && values[features[i].name] == Cell(locate(features[i].locator))
    {
      FeatureValuesAt(features, locate, i);
    }
    if forall i :: 0 <= i < |features| ==> locate(features[i].locator).Some? {
      forall v | v in record.Values ensures v != Null {
        var k :| k in record && record[k] == v;
        if k in values {
          var i :| 0 <= i < |features| && features[i].name == k;
        }
      }
    } else {
      var i :| 0 <= i < |features| && locate(features[i].locator).None?;
      assert record[features[i].name] == Null;
    }
  }

  /** `features.forEach(...)`: fill the dictionary one feature at a time. */
  method CollectFeatures(features: seq<Feature>, locate: Locate) returns (featureValues: map<string, JsValue>)
    ensures featureValues == FeatureValues(features, locate)
    ensures featureValues.Keys == Names(features)
    ensures forall i :: 0 <= i < |features| && LastWithName(features, i) ==>
      featureValues[features[i].name] == Cell(locate(features[i].locator))
  {
    featureValues := map[];
    var i := 0;
    while i < |features|
      invariant 0 <= i <= |features|
      invariant featureValues == FeatureValues(features[..i], locate)
    {
      var feature := features[i];
      featureValues := featureValues[feature.name := Cell(locate(feature.locator))];
      assert features[..i + 1][..i] == features[..i];
      i := i + 1;
    }
    assert features[..i] == features;
    FeatureValuesKeys(features, locate);
    forall i | 0 <= i < |features| && LastWithName(features, i)
      ensures featureValues[features[i].name] == Cell(locate(features[i].locator))
    {
      FeatureValuesAt(features, locate, i);
    }
  }

  /** One extraction: navigate to the company's URL, read every feature of
      the table, and add the company's name. */
  method ExtractFeatures(features: seq<Feature>, page: Page, company: CompanyRef) returns (record: Record)
    ensures record == BuildRecord(features, company.name, page(company.url))
    ensures record.Keys == {"company"} + Names(features)
    ensures "company" !in Names(features) ==> record["company"] == Str(company.name)
    ensures forall i :: 0 <= i < |features| && LastWithName(features, i) ==>
      record[features[i].name] == Cell(page(company.url)(features[i].locator))
  {
    var locate := page(company.url);
    var data := CollectFeatures(features, locate);
    record := map["company" := Str(company.name)] + data;
  }

  /** Reading a table with distinct names that does not use `company`:
      the record has exactly the table's names plus `company`, and each
      feature's value is its locator's cell. */
  lemma TableRecord(features: seq<Feature>, company: string, locate: Locate)
    requires DistinctNames(features) && "company" !in Names(features)
    ensures BuildRecord(features, company, locate).Keys == {"company"} + Names(features)
    ensures BuildRecord(features, company, locate)["company"] == Str(company)
    ensures forall i :: 0 <= i < |features| ==>
      BuildRecord(features, company, locate)[features[i].name] == Cell(locate(features[i].locator))
  {
    FeatureValuesKeys(features, locate);
    forall i | 0 <= i < |features|
      ensures BuildRecord(features, company, locate)[features[i].name] == Cell(locate(features[i].locator))
    {
      FeatureValuesAt(features, locate, i);
    }
  }

  lemma BasicStatsTable()
    ensures DistinctNames(BasicStatsFeatures) && "company" !in Names(BasicStatsFeatures)
    ensures Names(BasicStatsFeatures) == {"marketCap", "currentPrice", "stockPE", "ROCE", "ROE"}
  {
    NamesOfTable(BasicStatsFeatures, ["marketCap", "currentPrice", "stockPE", "ROCE", "ROE"]);
  }

  lemma ItemInventoryTable()
    ensures DistinctNames(ItemInventoryFeatures) && "company" !in Names(ItemInventoryFeatures)
    ensures Names(ItemInventoryFeatures) ==
      {"reserves", "borrowings", "totalLiabilities", "fixedAssets", "investments", "totalAssets"}
  {
    NamesOfTable(ItemInventoryFeatures,
      ["reserves", "borrowings", "totalLiabilities", "fixedAssets", "investments", "totalAssets"]);
  }

  lemma BattlePerformanceTable()
    ensures DistinctNames(BattlePerformanceFeatures) && "company" !in Names(BattlePerformanceFeatures)
  {
  }

  /** A table whose names, in order, are `names` has exactly those names. */
  lemma NamesOfTable(features: seq<Feature>, names: seq<string>)
    requires |features| == |names|
    requires forall i :: 0 <= i < |names| ==> features[i].name == names[i]
    ensures forall n :: n in Names(features) <==> n in names
  {
    forall n | n in names ensures n in Names(features) {
      var i :| 0 <= i < |names| && names[i] == n;
      assert features[i].name == n;
    }
  }

  /** Basic stats: market cap, current price, stock P/E, ROCE and ROE from
      the top-ratios list. */
  method ExtractBasicPokemonStats(page: Page, company: CompanyRef) returns (record: Record)
    ensures record == BuildRecord(BasicStatsFeatures, company.name, page(company.url))
    ensures record.Keys == {"company", "marketCap", "currentPrice", "stockPE", "ROCE", "ROE"}
    ensures record["company"] == Str(company.name)
    ensures forall i :: 0 <= i < |BasicStatsFeatures| ==>
      record[BasicStatsFeatures[i].name] == Cell(page(company.url)(BasicStatsFeatures[i].locator))
  {
    BasicStatsTable();
    record := ExtractFeatures(BasicStatsFeatures, page, company);
    TableRecord(BasicStatsFeatures, company.name, page(company.url));
  }

  /** Item inventory: six balance-sheet rows, each read from its last cell. */
  method ExtractPokemonItemInventory(page: Page, company: CompanyRef) returns (record: Record)
    ensures record == BuildRecord(ItemInventoryFeatures, company.name, page(company.url))
    ensures record.Keys ==
      {"company", "reserves", "borrowings", "totalLiabilities", "fixedAssets", "investments", "totalAssets"}
    ensures record["company"] == Str(company.name)
    ensures forall i :: 0 <= i < |ItemInventoryFeatures| ==>
      record[ItemInventoryFeatures[i].name] == Cell(page(company.url)(ItemInventoryFeatures[i].locator))
  {
    ItemInventoryTable();
    record := ExtractFeatures(ItemInventoryFeatures, page, company);
    TableRecord(ItemInventoryFeatures, company.name, page(company.url));
  }

  /** Battle performance: sales, net profit, OPM and EPS for 2022 to 2024
      from the profit-and-loss table. */
  method ExtractBattlePerformanceStats(page: Page, company: CompanyRef) returns (record: Record)
    ensures record == BuildRecord(BattlePerformanceFeatures, company.name, page(company.url))
    ensures record.Keys == {"company"} + Names(BattlePerformanceFeatures)
    ensures record["company"] == Str(company.name)
    ensures forall i :: 0 <= i < |BattlePerformanceFeatures| ==>
      record[BattlePerformanceFeatures[i].name] == Cell(page(company.url)(BattlePerformanceFeatures[i].locator))
  {
    BattlePerformanceTable();
    record := ExtractFeatures(BattlePerformanceFeatures, page, company);
    TableRecord(BattlePerformanceFeatures, company.name, page(company.url));
  }
}
