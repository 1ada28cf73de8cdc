# SWAPI fetch, filter and export: a Dafny model

The utility pulls collections from the Star Wars API (SWAPI). Each collection is a chain of
JSON pages `{results, next}`. It can also read the same collections from the sheets of an
Excel workbook. Each collection becomes a pandas DataFrame, keyed in a store by endpoint name.
Columns can be dropped from a stored table, and every table is written to one workbook, one
sheet per endpoint.

The repository holds two versions of this pipeline:

- `swapi_manager.py` has two providers behind one interface (paginated HTTP and a workbook).
  Its store lets fetch errors propagate, it drops columns strictly, and it names each sheet
  `endpoint.rstrip('/')`.
- `src/` has one HTTP client with a default base URL. Its store catches and logs fetch errors,
  it drops columns with `errors='ignore'`, and it names each sheet by the raw endpoint.

The model is split by component:

- `common.dfy` (`Common`): `Option`, `Result`, `Outcome`, and one `Error` variant per place
  where the code raises.
- `tables.dfy` (`Tables`): JSON values and records (a record is an ordered dict). Also a
  DataFrame as column labels plus one cell map per row, `pd.DataFrame(records)`,
  `to_dict(orient='records')`, and both `drop` policies.
- `stores.dfy` (`Stores`): the insertion-ordered dict of tables. Assigning to a key that is
  already present keeps that key's position.
- `http.dfy` (`Http`): the server is a total function from URL to reply, and a reply is a
  status plus a body. `Follow` is the meaning of the `while url:` loop under a bound on the
  number of pages, `Walk` is its unbounded meaning, and `FetchPages` is the loop itself.
- `swapi_manager.dfy` (`SwapiManager`): both providers, the manager class, the sheet-naming
  rule and `get_client`.
- `src_swapi_client.dfy` (`SrcSwapiClient`) and `src_swapi_data_manager.dfy`
  (`SrcDataManager`): the `src/` variant.

Classes are used only where the program changes its own state: the two managers, whose store
field is reassigned. The clients never change after construction, so they are datatypes. The
pagination loop and the export loops are methods with loop invariants. Each loop is proved
against a specification function, and the lemmas are about those functions.

Assumptions and modelling choices:

- Network reads and workbook files are parameters: `Http.Network` maps a URL to a reply, and
  `SwapiManager.Disk` maps a path to a workbook or to `None`.
- The loop has no bound of its own and runs forever on a cyclic `next` chain. Every fetch
  therefore requires `Http.Ends`: some number of pages reaches a falsy `next` or an error.
- `raise_for_status` raises exactly for statuses 400 to 599.
- `pd.DataFrame(list_of_dicts)` is taken to use every key of every record, each once, in the
  order the key is first seen. A cell the record lacks holds `Missing` (pandas' NaN). This is
  an assumption about pandas, not a verified fact.

Three behaviours of the code that a reader might not expect, each modelled as the code has it:

- The loop also stops on an empty-string `next`, not only on a missing or null one.
- The single-file manager lets fetch errors propagate; it does not recover per endpoint.
- The single-file Excel provider raises on an unknown sheet instead of warning (see Findings).
  `SwapiManager.FetchData` and the manager built on it keep that behaviour: fetching an
  unknown sheet fails and leaves the store unchanged. The intended provider,
  `SwapiManager.ExcelFetch`, is defined and proved beside it.

## Model

| member | source | states |
|---|---|---|
| `Tables.ToTable` | swapi_manager.py:82 | the DataFrame built from records has one row per record and is well-formed: unique column labels, and every row has a cell for exactly the columns |
| `Tables.Get` | swapi_manager.py:82 | the value a DataFrame row takes from a record under a label: NaN (`Missing`) when the record lacks that key; `Tables.GetAt` gives the key's own value when it has it |
| `Tables.Columns` | src/swapi_data_manager.py:14 | the derived column labels never repeat |
| `Tables.ColumnsCover` | src/swapi_data_manager.py:14 | a label is a column exactly when some record has that key |
| `Tables.ToTableCells` | swapi_manager.py:82 | when record i is a dict (no repeated key), row i holds its own value under each of its keys and NaN under the columns it lacks; a label is a key of row i iff some record has it |
| `Tables.ToRecords` | swapi_manager.py:50 | `to_dict(orient='records')` gives one record per row, in row order, with the keys in column order and the row's cell values |
| `Tables.RecordsRoundTrip` | swapi_manager.py:50 | turning a well-formed table with at least one row into records and back rebuilds the same table |
| `Tables.Without` | src/swapi_data_manager.py:21 | the kept labels are exactly the columns not listed for removal; uniqueness is kept; never longer than the input |
| `Tables.WithoutAppend` | src/swapi_data_manager.py:21 | removal distributes over concatenation, so the kept columns stay in their original relative order |
| `Tables.WithoutTwice` | src/swapi_data_manager.py:21 | removing the same labels a second time changes nothing |
| `Tables.DropIgnore` | src/swapi_data_manager.py:21 | `drop(errors='ignore')` removes exactly the listed labels that are columns, keeps the remaining columns in their order, keeps the row count, keeps every retained cell value, and keeps the table well-formed |
| `Tables.DropIgnoreIdempotent` | src/swapi_data_manager.py:21 | dropping the same labels twice gives the same table as dropping them once |
| `Tables.DropStrict` | swapi_manager.py:87 | the default `drop` succeeds iff every listed label is a column, and then equals the ignoring drop; otherwise it raises a KeyError naming exactly the absent labels |
| `Stores.Lookup` | swapi_manager.py:85 | `endpoint in self.data` holds exactly for the store's keys; in a store with unique keys it finds that key's table |
| `Stores.Put` | swapi_manager.py:82 | assigning under a key sets that key's table. An existing key keeps its position and a new key goes last. Every other key's table is unchanged |
| `Stores.PutValid` | src/swapi_data_manager.py:14 | assigning a well-formed table keeps the store's keys unique and all its tables well-formed |
| `Http.NextOf` | swapi_manager.py:35 | `data.get('next')` is `None` for a missing key and for JSON null, and the link itself otherwise |
| `Http.StatusOk` | swapi_manager.py:32 | `raise_for_status` lets a reply through exactly when its status is outside 400-599 (the same call is src/swapi_client.py:20) |
| `Http.Truthy` | swapi_manager.py:29 | `while url:` goes on exactly for a present, non-empty URL, so a missing, null or `""` link ends the loop (the same test is src/swapi_client.py:17) |
| `Http.FirstUrl` | swapi_manager.py:27 | the first URL is the base URL, then the endpoint, then `/`; it is never empty |
| `Http.Step` | swapi_manager.py:31-35 | a page reads without error exactly when the status is not 4xx/5xx and the body is a JSON object with `results`; an error status raises HttpError, a non-JSON body InvalidJson, an object without `results` MissingResults. A page read holds the body's `results` and, as `next`, the body's `next` link, or nothing when `next` is missing or null |
| `Http.Follow` | swapi_manager.py:29-36 | the loop allowed at most `fuel` page reads: `None` when the bound runs out first, otherwise the records of all pages in order or the first exception |
| `Http.FollowMonotone` | swapi_manager.py:29-36 | once a bound on the number of pages suffices, every larger bound gives the same outcome |
| `Http.WalkFollow` | swapi_manager.py:29-37 | the unbounded loop's result equals the outcome under any sufficient bound |
| `Http.Walk` | swapi_manager.py:29-37 | the result of the unbounded loop on a chain that ends: the outcome under a page bound that suffices |
| `Http.RequestChain` | swapi_manager.py:27-35 | the first request is the start URL, no request is to an empty URL, and each later request is the `next` of the page read just before it, which read without error |
| `Http.FollowSucceeds` | swapi_manager.py:26-37 | a successful run read every requested page without error and stopped at the first page whose `next` is falsy; its result is all pages' records concatenated in page order |
| `Http.FollowFails` | swapi_manager.py:32-34 | a failed run returns the exception of its last request, after error-free earlier pages, and no records |
| `Http.GatheredLength` | src/swapi_client.py:22 | the number of records returned is the sum of the page lengths along the chain |
| `Http.FetchPages` | swapi_manager.py:25-37 | the `while url:` loop returns exactly the unbounded run's outcome from its start URL |
| `Http.TwoPages` | src/swapi_client.py:14-25 | a chain of two pages with 5 and 3 records returns those 8 records, first page first |
| `SwapiManager.ExcelFetchAsWritten` | swapi_manager.py:45-50 | as written, fetching from the workbook succeeds iff the sheet exists. An unknown sheet raises AttributeError for `base_url`. A known sheet gives its rows as records (`Tables.ToRecords`), one per row |
| `SwapiManager.ExcelFetch` | swapi_manager.py:45-50 | never fails. An unknown sheet gives `[]`. A known sheet gives one record per row, in order, each with the sheet's columns |
| `SwapiManager.ExcelFetchDivergence` | swapi_manager.py:42-48 | the two versions agree on every known sheet and differ on every unknown one |
| `SwapiManager.ExcelUnknownSheetRaises` | swapi_manager.py:46-48 | an empty workbook asked for `people`: as written it raises, and the corrected version returns `[]` |
| `SwapiManager.ExcelFetchRoundTrip` | swapi_manager.py:50 | loading a fetched sheet back into a DataFrame rebuilds the sheet when it has a row |
| `SwapiManager.FetchData` | swapi_manager.py:25-50 | the remote provider returns the unbounded run (`Http.Walk`) from `base_url + endpoint + "/"`; the workbook provider, as written, succeeds exactly when the sheet exists, then with that sheet's rows as records, and raises otherwise |
| `SwapiManager.RStrip` | swapi_manager.py:95 | `rstrip(ch)` returns a prefix of the input that does not end in `ch`, and every character it removed is `ch` |
| `SwapiManager.RStripIdempotent` | swapi_manager.py:95 | stripping twice is stripping once |
| `SwapiManager.SheetPlan` | swapi_manager.py:94-96 | one sheet per store entry, in store order, holding that entry's table under a name that is a prefix of its endpoint |
| `SwapiManager.SheetPlanNames` | swapi_manager.py:94-96 | when no endpoint ends in `/`, the sheet names are the store keys in order and are distinct |
| `SwapiManager.SheetNameCollision` | swapi_manager.py:95 | the endpoints `people` and `people/` both become a sheet named `people` |
| `SwapiManager.StrictFilter` | swapi_manager.py:84-89 | for an unloaded endpoint the store is unchanged. For a loaded one the filter succeeds iff every label is a column, and then only that table changes, to its ignoring drop, with the key order kept. Otherwise it raises ColumnsNotFound |
| `SwapiManager.StrictFilterValid` | swapi_manager.py:84-87 | a successful strict filter keeps the store valid |
| `SwapiManager.DataManager.constructor` | swapi_manager.py:76-78 | a new manager holds its provider and an empty store |
| `SwapiManager.DataManager.FetchEntity` | swapi_manager.py:80-82 | on success the provider's records become the table under the endpoint, by `Put`. On failure the error propagates and the store is unchanged |
| `SwapiManager.DataManager.ApplyFilter` | swapi_manager.py:84-89 | the store becomes the strict filter's result; on a KeyError the error propagates and the store is unchanged |
| `SwapiManager.DataManager.SaveToExcel` | swapi_manager.py:91-97 | writes to the given file one sheet per entry, in store order, named `rstrip('/')` of the endpoint and holding its table |
| `SwapiManager.DataManager.GetClient` | swapi_manager.py:99-106 | gives the remote client built on the input iff it starts with `http`. Otherwise it gives the workbook client iff the input ends with `.xlsx` and the file reads. An unreadable `.xlsx` raises SourceLoadError. Anything else raises ValueError |
| `SwapiManager.StartsWith` | swapi_manager.py:101 | `str.startswith`: `p` is a prefix of `s` |
| `SwapiManager.EndsWith` | swapi_manager.py:103 | `str.endswith`: `p` is a suffix of `s` |
| `SwapiManager.HttpTakesPrecedence` | swapi_manager.py:101-103 | an `http` locator ending in `.xlsx` still selects the remote client |
| `SrcSwapiClient.DefaultFirstUrl` | src/swapi_client.py:8-15 | the default base URL is `https://swapi.dev/api/`, so the first request for `people` is `https://swapi.dev/api/people/` |
| `SrcSwapiClient.FetchJson` | src/swapi_client.py:13-25 | returns exactly the unbounded run's outcome from `base_url + endpoint + "/"` |
| `SrcDataManager.IgnoreFilter` | src/swapi_data_manager.py:19-24 | the key order is kept and every other endpoint is unchanged. An unloaded endpoint leaves the store unchanged. A loaded one gets the ignoring drop of its table |
| `SrcDataManager.IgnoreFilterIdempotent` | src/swapi_data_manager.py:21 | filtering twice with the same arguments leaves the same store as filtering once |
| `SrcDataManager.IgnoreFilterValid` | src/swapi_data_manager.py:20-21 | filtering keeps the store valid |
| `SrcDataManager.SheetPlan` | src/swapi_data_manager.py:28-29 | one sheet per store entry, in insertion order, named by the endpoint unchanged |
| `SrcDataManager.SheetPlanNames` | src/swapi_data_manager.py:28-29 | the sheet names are the store keys in order, so they are distinct |
| `SrcDataManager.DataManager.constructor` | src/swapi_data_manager.py:7-9 | a new manager holds its client and an empty store |
| `SrcDataManager.DataManager.FetchEntity` | src/swapi_data_manager.py:11-17 | on success the records become the table under the endpoint. On any client error the store stays exactly as before |
| `SrcDataManager.DataManager.ApplyFilter` | src/swapi_data_manager.py:19-24 | the store becomes the ignoring filter's result and the call never fails |
| `SrcDataManager.DataManager.SaveToExcel` | src/swapi_data_manager.py:26-30 | writes to the given file the raw-name sheet plan of the store |

## Left out

- Actual HTTP is not modelled: `requests.get`, redirects and timeouts are replaced by the `Http.Network` parameter.
- JSON bodies that are arrays or scalars are not modelled. A `results` member that is not a list of objects, and a `next` member that is not a string or null, are not modelled either.
- Excel reading and writing are I/O: `pd.read_excel` is the `Disk` parameter, and `pd.ExcelWriter`/`to_excel` is the `Export` value listing the sheets in order.
- Sheet-name limits of the Excel format are not modelled (length, forbidden characters), and neither is what the writer does with two sheets of the same name. `SheetNameCollision` only shows that such names can arise.
- The typing of pandas cells is not modelled: values form a closed datatype and integers are unbounded. How pandas really derives columns is replaced by the first-seen assumption stated above.
- Logging calls are side effects with no effect on the outcome. The diagnostic log is not modelled.
- `main.py` and the `main()` driver (`swapi_manager.py:110-133`) are not part of this model. They are argument parsing, a fixed endpoint list and directory creation.
- The abstract base classes `DataProviderInterface`, `Fetcher`, `Processor` and `Saver` carry no behaviour. The interface dispatch is the `Provider` datatype and `SwapiManager.FetchData`.
- The stray module-level literals at the end of the two `src/` files have no effect.
- The in-place update of a DataFrame (`inplace=True`) is modelled as replacing the table in its store entry. The code keeps no other reference to a stored DataFrame, so no aliasing is lost.
- `SrcDataManager.DataManager.FetchEntity` catches every `Exception`. The model covers the exceptions the modelled code raises (`Common.Error`), not interpreter-level failures.
- `Http.FetchPages`, `SwapiManager.FetchData` and `SrcSwapiClient.FetchJson` require the `next` chain to end (`Http.Ends`). A cyclic chain is outside the model; the code loops forever on it.
- `SwapiManager.SheetPlan`: its contract says only that each sheet name is a prefix of the endpoint. The exact `rstrip('/')` name is stated by `SwapiManager.DataManager.SaveToExcel` and by the contract of `SwapiManager.RStrip`.

## Findings

| source | as written | input that shows it | evidently intended | confidence | as-written member | corrected member |
|---|---|---|---|---|---|---|
| swapi_manager.py:47 | the warning for an unknown sheet formats `self.base_url`, which `ExcelSWAPIClient.__init__` (lines 42-43) never assigns, so the call raises AttributeError | any workbook without the requested sheet, e.g. an empty workbook and endpoint `people` | log a warning and return `[]` (line 48) | not executed; high | `SwapiManager.ExcelFetchAsWritten` (`SwapiManager.ExcelUnknownSheetRaises`) | `SwapiManager.ExcelFetch` (round trip proved in `SwapiManager.ExcelFetchRoundTrip`) |
