/**
 * The single-file variant: two data providers (paginated HTTP and a
 * pre-loaded workbook), a data manager whose store errors propagate, a
 * strict column drop, sheet names with trailing `/` stripped, and the
 * locator rule that picks a provider.
 */
module SwapiManager {
  import opened Common
  import opened Tables
  import opened Stores
  import Http

  /** `pd.read_excel(path, sheet_name=None)`: every sheet of a file by name. */
  type Workbook = map<string, Table>

  /** The file system as `pd.read_excel` sees it: a workbook, or `None` when the file cannot be read. */
  type Disk = string -> Option<Workbook>

  /** The two implementations of `DataProviderInterface`; neither changes after construction. */
  datatype Provider =
    | RemoteClient(baseUrl: string)
    | ExcelClient(sheets: Workbook)

  /**
   * `ExcelSWAPIClient.fetch_data` as written: a known sheet gives its rows
   * as records, but the warning for an unknown sheet reads `self.base_url`,
   * which this class never assigns, so that branch raises.
   */
  function ExcelFetchAsWritten(sheets: Workbook, endpoint: string): (r: Result<seq<Record>, Error>)
    ensures r.Success? <==> endpoint in sheets
    ensures r.Failure? ==> r.error == MissingAttribute("base_url")
    ensures r.Success? ==> |r.value| == |sheets[endpoint].rows|
    ensures r.Success? ==> r.value == ToRecords(sheets[endpoint])
  {
    if endpoint !in sheets then Failure(MissingAttribute("base_url"))
    else Success(ToRecords(sheets[endpoint]))
  }

  /**
   * `ExcelSWAPIClient.fetch_data` as intended: an unknown sheet is a soft
   * miss giving no records; a known sheet gives one record per row, in row
   * order, each with the sheet's columns in order and the cell values.
   */
  function ExcelFetch(sheets: Workbook, endpoint: string): (r: Result<seq<Record>, Error>)
    ensures r.Success?
    ensures endpoint !in sheets ==> r.value == []
    ensures endpoint in sheets ==>
              && |r.value| == |sheets[endpoint].rows|
              && forall i :: 0 <= i < |r.value| ==> Names(r.value[i]) == sheets[endpoint].columns
  {
    if endpoint !in sheets then Success([]) else Success(ToRecords(sheets[endpoint]))
  }

  /** The two agree on every known sheet and disagree on every unknown one. */
  lemma ExcelFetchDivergence(sheets: Workbook, endpoint: string)
    ensures endpoint in sheets ==> ExcelFetchAsWritten(sheets, endpoint) == ExcelFetch(sheets, endpoint)
    ensures endpoint !in sheets ==>
              && ExcelFetchAsWritten(sheets, endpoint) == Failure(MissingAttribute("base_url"))
              && ExcelFetch(sheets, endpoint) == Success([])
  {
  }

  /** A workbook without a `people` sheet: as written the call raises instead of returning `[]`. */
  lemma ExcelUnknownSheetRaises()
    ensures ExcelFetchAsWritten(map[], "people").Failure?
    ensures ExcelFetch(map[], "people") == Success([])
  {
  }

  /** Loading a fetched sheet back into a DataFrame rebuilds the sheet, for any sheet with a row. */
  lemma ExcelFetchRoundTrip(sheets: Workbook, endpoint: string)
    requires endpoint in sheets && WellFormed(sheets[endpoint]) && |sheets[endpoint].rows| > 0
    ensures ToTable(ExcelFetch(sheets, endpoint).value) == sheets[endpoint]
  {
    RecordsRoundTrip(sheets[endpoint]);
  }

  /** The remote provider's page chain ends; the workbook provider always answers. */
  ghost predicate Terminates(p: Provider, net: Http.Network, endpoint: string) {
    p.RemoteClient? ==> Http.Ends(net, Http.FirstUrl(p.baseUrl, endpoint))
  }

  /** What `data_provider.fetch_data(endpoint)` returns or raises. */
  ghost function Fetched(p: Provider, net: Http.Network, endpoint: string): Result<seq<Record>, Error>
    requires Terminates(p, net, endpoint)
  {
    match p
    case RemoteClient(base) => Http.Walk(net, Http.FirstUrl(base, endpoint))
    case ExcelClient(sheets) => ExcelFetchAsWritten(sheets, endpoint)
  }

  /**
   * `fetch_data` dispatched on the provider: the remote one follows the
   * pages from `base_url + endpoint + "/"`, the workbook one reads a sheet
   * and, as written, raises on a sheet it does not have.
   */
  method FetchData(p: Provider, net: Http.Network, endpoint: string) returns (r: Result<seq<Record>, Error>)
    requires Terminates(p, net, endpoint)
    ensures r == Fetched(p, net, endpoint)
    ensures p.RemoteClient? ==> r == Http.Walk(net, Http.FirstUrl(p.baseUrl, endpoint))
    ensures p.ExcelClient? ==> (r.Success? <==> endpoint in p.sheets)
    ensures p.ExcelClient? && r.Success? ==> r.value == ToRecords(p.sheets[endpoint])
  {
    match p
    case RemoteClient(base) =>
      r := Http.FetchPages(net, Http.FirstUrl(base, endpoint));
    case ExcelClient(sheets) =>
      r := ExcelFetchAsWritten(sheets, endpoint);
  }

  /** `s.rstrip(ch)`: the longest prefix of `s` that does not end with `ch`. */
  function RStrip(s: string, ch: char): (r: string)
    ensures r <= s
    ensures r == [] || r[|r| - 1] != ch
    ensures forall i :: |r| <= i < |s| ==> s[i] == ch
  {
    if s == [] then []
    else if s[|s| - 1] == ch then RStrip(s[..|s| - 1], ch)
    else s
  }

  lemma RStripIdempotent(s: string, ch: char)
    ensures RStrip(RStrip(s, ch), ch) == RStrip(s, ch)
  {
  }

  /**
   * The export plan of `save_to_excel`: one sheet per store entry, in
   * store order, named after the endpoint with trailing `/` removed.
   */
  function SheetPlan(s: Store): (plan: seq<Sheet>)
    ensures |plan| == |s|
    ensures forall i :: 0 <= i < |s| ==> plan[i].table == s[i].table && plan[i].name <= s[i].endpoint
  {
    seq(|s|, i requires 0 <= i < |s| => Sheet(RStrip(s[i].endpoint, '/'), s[i].table))
  }

  /** When no endpoint ends with `/`, the sheets are named exactly by the store keys, all distinct. */
  lemma SheetPlanNames(s: Store)
    requires Stores.Valid(s)
    requires forall i :: 0 <= i < |s| ==> s[i].endpoint == [] || s[i].endpoint[|s[i].endpoint| - 1] != '/'
    ensures SheetNames(SheetPlan(s)) == Keys(s)
    ensures Distinct(SheetNames(SheetPlan(s)))
  {
    var plan := SheetPlan(s);
    forall i | 0 <= i < |s| ensures plan[i].name == s[i].endpoint {
      var e := s[i].endpoint;
      if e != [] {
        assert RStrip(e, '/') == e;
      }
    }
  }

  /** Distinct endpoints can share a sheet name: `people` and `people/` both become `people`. */
  lemma SheetNameCollision(t: Table, u: Table)
    ensures var plan := SheetPlan([Entry("people", t), Entry("people/", u)]);
            |plan| == 2 && plan[0].name == plan[1].name == "people"
  {
    assert "people/"[..6] == "people";
  }

  /** The store after `apply_filter` with the default `errors='raise'`, or the KeyError it raises. */
  function StrictFilter(s: Store, endpoint: string, drop: seq<string>): (r: Result<Store, Error>)
    ensures Lookup(s, endpoint).None? ==> r == Success(s)
    ensures Lookup(s, endpoint).Some? ==>
              (r.Success? <==> forall c :: c in drop ==> c in Lookup(s, endpoint).value.columns)
    ensures r.Failure? ==> r.error.ColumnsNotFound?
    ensures r.Success? ==>
              && Keys(r.value) == Keys(s)
              && (forall k :: k != endpoint ==> Lookup(r.value, k) == Lookup(s, k))
              && (Lookup(s, endpoint).Some? ==>
                    Lookup(r.value, endpoint) == Some(DropIgnore(Lookup(s, endpoint).value, drop)))
  {
    match Lookup(s, endpoint)
    case None => Success(s)
    case Some(t) =>
      match DropStrict(t, drop)
      case Failure(e) => Failure(e)
      case Success(t') => Success(Put(s, endpoint, t'))
  }

  /** A store the strict filter accepts is still valid afterwards. */
  lemma StrictFilterValid(s: Store, endpoint: string, drop: seq<string>)
    requires Stores.Valid(s) && StrictFilter(s, endpoint, drop).Success?
    ensures Stores.Valid(StrictFilter(s, endpoint, drop).value)
  {
    match Lookup(s, endpoint)
    case None =>
    case Some(t) =>
      var i :| 0 <= i < |s| && Keys(s)[i] == endpoint;
      assert s[i].table == t;
      PutValid(s, endpoint, DropIgnore(t, drop));
  }

  /** `SWAPIDataManager`. */
  class DataManager {
    const provider: Provider
    var data: Store

    ghost predicate Valid()
      reads this
    {
      Stores.Valid(data)
    }

    constructor (provider: Provider)
      ensures Valid() && this.provider == provider && data == []
    {
      this.provider := provider;
      data := [];
    }

    /**
     * `fetch_entity`: the provider's records become the table under
     * `endpoint`, in place of any earlier table and at the key's old
     * position; an exception from the provider propagates and leaves the
     * store as it was.
     */
    method FetchEntity(net: Http.Network, endpoint: string) returns (outcome: Outcome<Error>)
      requires Valid() && Terminates(provider, net, endpoint)
      modifies this
      ensures Valid()
      ensures Fetched(provider, net, endpoint).Failure? ==>
                outcome == Fail(Fetched(provider, net, endpoint).error) && data == old(data)
      ensures Fetched(provider, net, endpoint).Success? ==>
                outcome == Pass && data == Put(old(data), endpoint, ToTable(Fetched(provider, net, endpoint).value))
    {
      var records := FetchData(provider, net, endpoint);
      match records
      case Failure(e) =>
        outcome := Fail(e);
      case Success(rs) =>
        PutValid(data, endpoint, ToTable(rs));
        data := Put(data, endpoint, ToTable(rs));
        outcome := Pass;
    }

    /**
     * `apply_filter`: a loaded endpoint loses the listed columns, or the
     * KeyError for labels it lacks propagates with nothing changed; an
     * unloaded endpoint only draws a warning.
     */
    method ApplyFilter(endpoint: string, columnsToDrop: seq<string>) returns (outcome: Outcome<Error>)
      requires Valid()
      modifies this
      ensures Valid()
      ensures StrictFilter(old(data), endpoint, columnsToDrop).Failure? ==>
                outcome == Fail(StrictFilter(old(data), endpoint, columnsToDrop).error) && data == old(data)
      ensures StrictFilter(old(data), endpoint, columnsToDrop).Success? ==>
                outcome == Pass && data == StrictFilter(old(data), endpoint, columnsToDrop).value
    {
      var filtered := StrictFilter(data, endpoint, columnsToDrop);
      match filtered
      case Failure(e) =>
        outcome := Fail(e);
      case Success(s) =>
        StrictFilterValid(data, endpoint, columnsToDrop);
        data := s;
        outcome := Pass;
    }

    /** `save_to_excel`: the sheets written to `filename`, one per entry in store order. */
    method SaveToExcel(filename: string) returns (file: Export)
      ensures file.path == filename && file.sheets == SheetPlan(data)
      ensures forall i :: 0 <= i < |data| ==> file.sheets[i] == Sheet(RStrip(data[i].endpoint, '/'), data[i].table)
    {
      var sheets: seq<Sheet> := [];
      for i := 0 to |data|
        invariant |sheets| == i
        invariant forall j :: 0 <= j < i ==> sheets[j] == Sheet(RStrip(data[j].endpoint, '/'), data[j].table)
      {
        var sheetName := RStrip(data[i].endpoint, '/');
        sheets := sheets + [Sheet(sheetName, data[i].table)];
      }
      file := Export(filename, sheets);
    }

    /**
     * `get_client`: a locator starting with `http` names the remote API; else
     * one ending in `.xlsx` names a workbook, read at once; anything else is
     * a ValueError.
     */
    static function GetClient(input: string, disk: Disk): (r: Result<Provider, Error>)
      ensures (r.Success? && r.value.RemoteClient?) <==> StartsWith(input, "http")
      ensures r.Success? && r.value.RemoteClient? ==> r.value.baseUrl == input
      ensures (r.Success? && r.value.ExcelClient?) <==>
                !StartsWith(input, "http") && EndsWith(input, ".xlsx") && disk(input).Some?
      ensures r.Success? && r.value.ExcelClient? ==> r.value.sheets == disk(input).value
      ensures r == Failure(SourceLoadError(input)) <==>
                !StartsWith(input, "http") && EndsWith(input, ".xlsx") && disk(input).None?
      ensures r == Failure(UnknownSourceFormat) <==> !StartsWith(input, "http") && !EndsWith(input, ".xlsx")
    {
      if StartsWith(input, "http") then Success(RemoteClient(input))
      else if EndsWith(input, ".xlsx") then
        match disk(input)
        case Some(book) => Success(ExcelClient(book))
        case None => Failure(SourceLoadError(input))
      else Failure(UnknownSourceFormat)
    }
  }

  /** `s.startswith(p)`. */
  predicate StartsWith(s: string, p: string) {
    p <= s
  }

  /** `s.endswith(p)`. */
  predicate EndsWith(s: string, p: string) {
    |p| <= |s| && s[|s| - |p|..] == p
  }

  /** The `http` test wins: an `http…` locator ending in `.xlsx` is still the remote API. */
  lemma HttpTakesPrecedence(disk: Disk)
    ensures DataManager.GetClient("http://host/book.xlsx", disk) == Success(RemoteClient("http://host/book.xlsx"))
  {
    assert StartsWith("http://host/book.xlsx", "http");
  }
}
