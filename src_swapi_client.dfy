/** The remote client of the package variant: a default base URL and the pagination loop. */
module SrcSwapiClient {
  import opened Common
  import opened Tables
  import Http

  /** `SWAPIClient.BASE_URL`. */
  const BASE_URL: string := "https://swapi.dev/api/"

  /** `SWAPIClient`; constructed without an argument it talks to the public SWAPI server. */
  datatype SwapiClient = SwapiClient(baseUrl: string := BASE_URL)

  /** The default client's first request for `people`. */
  lemma DefaultFirstUrl()
    ensures SwapiClient().baseUrl == "https://swapi.dev/api/"
    ensures Http.FirstUrl(SwapiClient().baseUrl, "people") == "https://swapi.dev/api/people/"
  {
  }

  /**
   * `fetch_json`: every record of every page from `base_url + endpoint + "/"`
   * along the `next` chain, in page order, or the first exception.
   */
  method FetchJson(client: SwapiClient, net: Http.Network, endpoint: string) returns (r: Result<seq<Record>, Error>)
    requires Http.Ends(net, Http.FirstUrl(client.baseUrl, endpoint))
    ensures r == Http.Walk(net, Http.FirstUrl(client.baseUrl, endpoint))
  {
    r := Http.FetchPages(net, Http.FirstUrl(client.baseUrl, endpoint));
  }
}
