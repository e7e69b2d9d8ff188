# Company-profile scraper: retry coordinator, extractors and reshape

A Dafny model of the decision logic in `index.js`, a Puppeteer script. The script scrapes financial metrics from seven company profile pages on screener.in and writes three CSV files.

The browser is abstract in this model:

- A page is a function from a URL to a locator.
- A locator maps one feature's numeric selector parameters to the text of the element it finds, or to nothing.

The modelled parts are these:

- **Registry** (`registry.dfy`): the static company table and the profile URL built from each company id.
- **Extractors** (`extractors.dfy`): the three feature tables (basic stats, item inventory, battle performance). Each table entry is a name plus locator parameters. The feature loop fills a dictionary with each element's text, or `null` when no element matched. Then `company` is added. The dictionary fill is a method with a loop invariant. It is proved equal to the pure `FeatureValues`, and the lemmas are stated about `FeatureValues`.
- **Retry coordinator** (`retry.dfy`): `extractWithRetries` as a method with a `while` loop. The extractor is an oracle: the outcome of its k-th call. The method also returns how many calls it made.
- **Reshape** (`reshape.dfy`): `remapBattleStats` as two nested loops. They are proved equal to the pure `Remap`, which turns each wide record into three rows, one per year 2022, 2023 and 2024.
- **Scenarios** (`scenarios.dfy`): the coordinator driven by the basic-stats extractor on concrete pages:
  - a P/E entry that never renders: three calls, and the `null` is kept;
  - a P/E entry that renders on the second load: two calls, and the record is complete.

JavaScript values are `Undefined | Null | Str(text)`. Looking up a missing key yields `undefined`, as `stat[key]` does. The completeness test `!Object.values(data).includes(null)` only looks for `null`: an `undefined` value does not make a record incomplete. A falsy extractor result is `None`.

Two behaviours of the code that the model keeps:

- **Thrown errors.** An extractor that throws is not retried. The exception leaves `extractWithRetries` (`index.js:27`), so retry-on-throw is not modelled. Only falsy results and records holding `null` are retried.
- **Retries of zero or less.** The extractor is never called and the initial `null` is returned.

## Model

| member | source | states |
|---|---|---|
| `Registry.ToCompanyRefs` | index.js:16-19 | one reference per table entry, same length and order; the name is kept; the URL starts with the base URL and the id follows it |
| `Registry.ProfileUrl` | index.js:18 | the URL is the base URL followed by exactly the id |
| `Registry.ProfileUrlRoundTrip` | index.js:14-18 | taking the id back out of a profile URL gives the id; a URL splits as base + id exactly when it is that id's profile URL |
| `Registry.UrlsDistinct` | index.js:16-19 | distinct ids give distinct URLs |
| `Registry.CompaniesFacts` | index.js:4-19 | the registry has seven companies in table order, the first is Voltas at `https://www.screener.in/company/VOLTAS`, and no two fetch the same URL |
| `Extractors.FeatureValuesKeys` | index.js:54-61 | the filled dictionary has exactly the table's feature names as keys |
| `Extractors.FeatureValuesAt` | index.js:56-61 | under a feature's name, unless a later feature reuses the name, the dictionary holds that feature's cell: `null` exactly when the locator found nothing, otherwise the found text |
| `Extractors.BuiltRecordComplete` | index.js:45-66 | a record built from a table with distinct names has no `null` value exactly when every locator of the table found an element |
| `Extractors.CollectFeatures` | index.js:54-63 | the loop leaves the dictionary of `FeatureValues`: keys are the names, and each last-named feature's value is its cell |
| `Extractors.ExtractFeatures` | index.js:42-66 | the record is `company` plus the feature names; `company` holds the display name unless a feature overrides it; each feature's value is the cell its locator finds on the page loaded from the company's URL |
| `Extractors.TableRecord` | index.js:54-66 | for a table with distinct names that does not use `company`: exact key set, `company` is the display name, and every feature holds its cell |
| `Extractors.BasicStatsTable` | index.js:46-52 | the basic-stats names are distinct, do not include `company`, and are marketCap, currentPrice, stockPE, ROCE and ROE |
| `Extractors.ItemInventoryTable` | index.js:74-81 | the inventory names are distinct, do not include `company`, and are the six balance-sheet names |
| `Extractors.BattlePerformanceTable` | index.js:103-116 | the twelve battle-performance names are distinct and do not include `company` |
| `Extractors.ExtractBasicPokemonStats` | index.js:42-67 | keys are exactly company, marketCap, currentPrice, stockPE, ROCE and ROE; each value is the cell at its top-ratios position |
| `Extractors.ExtractPokemonItemInventory` | index.js:70-96 | keys are exactly company plus the six balance-sheet names; each value is the cell at the end of its balance-sheet row |
| `Extractors.ExtractBattlePerformanceStats` | index.js:99-131 | keys are company plus the twelve year-suffixed names; each value is the cell of its profit-and-loss row and column |
| `Retry.ExtractWithRetries` | index.js:22-39 | at most `retries` calls, and none when retries <= 0 (then `null` is returned); the result is the last call's outcome, unchanged; every earlier call was incomplete; the loop ends only on a complete record or after exactly `retries` calls; a complete outcome at call k means no call after k |
| `Reshape.RemapBattleStats` | index.js:200-219 | the pushed rows equal `Remap` of the input, three per record, and row k is record k/3's row for year 2022 + k mod 3 |
| `Reshape.RemapLength` | index.js:203-216 | the output has exactly three rows per input record |
| `Reshape.RemapAt` | index.js:206-214 | row 3i + j carries record i's `company`, year 2022 + j, and the values under `sales`, `netProfit`, `opm` and `eps` suffixed with that year, copied as they are, `null` included |
| `Reshape.RemapAppend` | index.js:203-216 | reshaping a concatenation gives the concatenated reshapes, so input order is kept |
| `Reshape.YearTexts` | index.js:206-210 | the template renders the years as "2022", "2023" and "2024" |
| `Reshape.MetricKeys` | index.js:210-213 | the keys read for each metric and year are the twelve suffixed names the battle-performance extractor writes |
| `Reshape.CompanyRowsLiteral` | index.js:206-214 | one record's three rows, with the wide keys written out, years ascending |
| `Reshape.WidenCompanyRows` | index.js:200-219 | a record with exactly the company and twelve wide keys is recovered from its three rows, so reshaping loses nothing |
| `Reshape.CompanyRowsWiden` | index.js:200-219 | three rows of one company for 2022, 2023 and 2024 are the reshape of their widened record |
| `Reshape.BattleRecordKeys` | index.js:103-130 | a record the battle-performance extractor builds has exactly `company` and the twelve wide keys |
| `Reshape.BattleRecordSurvivesReshape` | index.js:200-219 | every record the battle-performance extractor builds is recovered from its three reshaped rows |
| `Reshape.BattleFeaturesByYear` | index.js:103-116 | features 4j to 4j + 3 are sales, net profit, OPM and EPS of year 2022 + j; they sit in profit-and-loss rows 1, 10, 4 and 11, at column 4 - j from the end |
| `Reshape.BattleRowsFromPage` | index.js:206-214 | extraction followed by the reshape: the row for year 2022 + j holds the company name and the cells of rows 1, 10, 4 and 11 at column 4 - j from the end |
| `Scenarios.BasicRecordOf` | index.js:46-66 | the basic-stats record is the company plus the five top-ratios cells at positions 1, 2, 4, 7 and 8 |
| `Scenarios.PriceEarningsNeverRenders` | index.js:22-39 | when the P/E entry never renders, three calls are made and the last record comes back with `stockPE` still `null` |
| `Scenarios.LoadsJudged` | index.js:28 | the load without the P/E entry is incomplete, the full load is complete, and the full record holds the five texts |
| `Scenarios.PriceEarningsRendersLate` | index.js:26-30 | when the P/E entry renders on the second load, exactly two calls are made and the complete second record is returned |

## Left out

- Browser launch, navigation, `page.evaluate` and `browser.close` (`index.js:43`, `45`, `100`, `145-146`, `232`) are foreign browser automation. Navigation and the DOM are the `Page` and `Locate` parameters.
- The CSS selector strings are DOM semantics. Only their numeric parameters are kept, in `Locator`.
- `writeToCsv`, the csv-writer library and the column headers (`index.js:134-141`, `159-230`) are a wrapper around a library that is not shown.
- `console.log` output is logging only.
- The top-level async function is orchestration: it loops over the companies for each task and passes the collections to the writer (`index.js:144-233`). `async`/`await` sequencing is left out with it.
- Exceptions thrown by the extractor propagate out of `extractWithRetries` uncaught, so they are not modelled.
- Reshape.RemapBattleStats: its input is a sequence of records, not of retry results. In the script, each element is what the retry coordinator returned. A `null` element would make `stat.company` throw. That cannot happen there: the coordinator is called with 3 attempts, and every extractor returns an object.
- Key order inside a JavaScript object is not modelled: records are maps.
- Retry.ExtractWithRetries: `retries` is an integer. A fractional JavaScript number, which would allow one more loop iteration, is not modelled. `calls` counts extractor calls. The source's `attempt` counter is not incremented on the successful call.
- Extractors: each extraction sees one DOM, a function of the URL. Content that changes between two queries of the same load is not modelled. Content that changes between attempts is the retry oracle's `k` index.
