/**
 * The data manager of the package variant: fetch errors are caught and
 * logged, column removal ignores absent labels, and sheets are named by
 * the raw endpoint.
 */
module SrcDataManager {
  import opened Common
  import opened Tables
  import opened Stores
  import Http
  import SrcSwapiClient

  /** The store after `apply_filter` with `errors='ignore'`. */
  function IgnoreFilter(s: Store, endpoint: string, drop: seq<string>): (r: Store)
    ensures Lookup(s, endpoint).None? ==> r == s
    ensures Keys(r) == Keys(s)
    ensures forall k :: k != endpoint ==> Lookup(r, k) == Lookup(s, k)
    ensures Lookup(s, endpoint).Some? ==> Lookup(r, endpoint) == Some(DropIgnore(Lookup(s, endpoint).value, drop))
  {
    match Lookup(s, endpoint)
    case None => s
    case Some(t) => Put(s, endpoint, DropIgnore(t, drop))
  }

  /** Filtering the same endpoint by the same labels twice leaves the store as filtering once. */
  lemma IgnoreFilterIdempotent(s: Store, endpoint: string, drop: seq<string>)
    ensures IgnoreFilter(IgnoreFilter(s, endpoint, drop), endpoint, drop) == IgnoreFilter(s, endpoint, drop)
  {
    match Lookup(s, endpoint)
    case None =>
    case Some(t) =>
      var once := IgnoreFilter(s, endpoint, drop);
      DropIgnoreIdempotent(t, drop);
      PutTwice(s, endpoint, DropIgnore(t, drop));
  }

  lemma {:induction false} PutTwice(s: Store, k: string, t: Table)
    ensures Put(Put(s, k, t), k, t) == Put(s, k, t)
  {
    if s != [] && s[0].endpoint != k {
      PutTwice(s[1..], k, t);
    }
  }

  lemma IgnoreFilterValid(s: Store, endpoint: string, drop: seq<string>)
    requires Stores.Valid(s)
    ensures Stores.Valid(IgnoreFilter(s, endpoint, drop))
  {
    match Lookup(s, endpoint)
    case None =>
    case Some(t) =>
      var i :| 0 <= i < |s| && Keys(s)[i] == endpoint;
      assert s[i].table == t;
      PutValid(s, endpoint, DropIgnore(t, drop));
  }

  /** The export plan: one sheet per entry, in store order, named by the endpoint unchanged. */
  function SheetPlan(s: Store): (plan: seq<Sheet>)
    ensures |plan| == |s|
    ensures forall i :: 0 <= i < |s| ==> plan[i] == Sheet(s[i].endpoint, s[i].table)
  {
    seq(|s|, i requires 0 <= i < |s| => Sheet(s[i].endpoint, s[i].table))
  }

  /** The sheet names are the store keys in order, so a valid store never repeats a sheet name. */
  lemma SheetPlanNames(s: Store)
    requires Stores.Valid(s)
    ensures SheetNames(SheetPlan(s)) == Keys(s)
    ensures Distinct(SheetNames(SheetPlan(s)))
  {
  }

  /** `SWAPIDataManager`. */
  class DataManager {
    const client: SrcSwapiClient.SwapiClient
    var dfList: Store

    ghost predicate Valid()
      reads this
    {
      Stores.Valid(dfList)
    }

    constructor (client: SrcSwapiClient.SwapiClient)
      ensures Valid() && this.client == client && dfList == []
    {
      this.client := client;
      dfList := [];
    }

    /**
     * `fetch_entity`: on success the records become the table under
     * `endpoint`; any exception from the client is caught and logged, and
     * the store keeps exactly its old entries.
     */
    method FetchEntity(net: Http.Network, endpoint: string)
      requires Valid() && Http.Ends(net, Http.FirstUrl(client.baseUrl, endpoint))
      modifies this
      ensures Valid()
      ensures var fetched := Http.Walk(net, Http.FirstUrl(client.baseUrl, endpoint));
              dfList == if fetched.Success? then Put(old(dfList), endpoint, ToTable(fetched.value)) else old(dfList)
    {
      var rawData := SrcSwapiClient.FetchJson(client, net, endpoint);
      match rawData
      case Failure(_) =>
      case Success(rs) =>
        PutValid(dfList, endpoint, ToTable(rs));
        dfList := Put(dfList, endpoint, ToTable(rs));
    }

    /** `apply_filter`: removes the listed columns a loaded endpoint has; never raises. */
    method ApplyFilter(endpoint: string, columnsToRemove: seq<string>)
      requires Valid()
      modifies this
      ensures Valid()
      ensures dfList == IgnoreFilter(old(dfList), endpoint, columnsToRemove)
    {
      IgnoreFilterValid(dfList, endpoint, columnsToRemove);
      dfList := IgnoreFilter(dfList, endpoint, columnsToRemove);
    }

    /** `save_to_excel`: the sheets written to `fileName`, one per entry in store order. */
    method SaveToExcel(fileName: string) returns (file: Export)
      ensures file.path == fileName && file.sheets == SheetPlan(dfList)
    {
      var sheets: seq<Sheet> := [];
      for i := 0 to |dfList|
        invariant sheets == SheetPlan(dfList[..i])
      {
        sheets := sheets + [Sheet(dfList[i].endpoint, dfList[i].table)];
      }
      assert dfList[..|dfList|] == dfList;
      file := Export(fileName, sheets);
    }
  }
}
