/**
 * The remote source's pagination: `GET url`, fail on an error status,
 * parse the JSON body, append its `results`, and continue with its
 * `next` until that is falsy.
 *
 * The server is a total function from URL to reply. `Follow` is the
 * loop's meaning with an explicit bound on the number of pages; the loop
 * itself has no bound and runs forever on a cyclic `next` chain, so
 * callers must know that the chain from the first URL ends (`Ends`).
 */
module Http {
  import opened Common
  import opened Tables

  /** The `next` member of a page body. */
  datatype Next = Absent | JsonNull | Link(url: string)

  /** A response body: not JSON at all, or a JSON object with or without `results`. */
  datatype Body = NotJson | Object(results: Option<seq<Record>>, next: Next)

  datatype Reply = Reply(status: int, body: Body)

  /** What `requests.get` answers for each URL. */
  type Network = string -> Reply

  /** One page after a successful read: its records and `data.get('next')`. */
  datatype Page = Page(results: seq<Record>, next: Option<string>)

  /** `raise_for_status()` raises on client (4xx) and server (5xx) errors only. */
  predicate StatusOk(status: int) {
    !(400 <= status < 600)
  }

  /** `data.get('next')`: a missing key reads as `None`, like JSON `null`. */
  function NextOf(n: Next): (r: Option<string>)
    ensures r == None <==> n.Absent? || n.JsonNull?
    ensures n.Link? ==> r == Some(n.url)
  {
    match n
    case Absent => None
    case JsonNull => None
    case Link(u) => Some(u)
  }

  /** `while url:` goes on exactly for a non-empty string. */
  predicate Truthy(url: Option<string>) {
    url.Some? && url.value != ""
  }

  /** `f"{base_url}{endpoint}/"`. */
  function FirstUrl(base: string, endpoint: string): (u: string)
    ensures |u| == |base| + |endpoint| + 1 && Truthy(Some(u))
    ensures u[..|base|] == base && u[|base|..|u| - 1] == endpoint && u[|u| - 1] == '/'
  {
    base + endpoint + "/"
  }

  /** One pass of the loop body: read `url` as a page, or the exception it raises. */
  function Step(net: Network, url: string): (r: Result<Page, Error>)
    ensures r.Success? <==> StatusOk(net(url).status) && net(url).body.Object? && net(url).body.results.Some?
    ensures !StatusOk(net(url).status) ==> r == Failure(HttpError(net(url).status, url))
    ensures StatusOk(net(url).status) && net(url).body.NotJson? ==> r == Failure(InvalidJson(url))
    ensures StatusOk(net(url).status) && net(url).body.Object? && net(url).body.results.None? ==> r == Failure(MissingResults(url))
    ensures r.Success? ==> r.value == Page(net(url).body.results.value, NextOf(net(url).body.next))
  {
    var reply := net(url);
    if !StatusOk(reply.status) then Failure(HttpError(reply.status, url))
    else if reply.body.NotJson? then Failure(InvalidJson(url))
    else if reply.body.results.None? then Failure(MissingResults(url))
    else Success(Page(reply.body.results.value, NextOf(reply.body.next)))
  }

  /** Put `xs` in front of a finished successful run; errors and unfinished runs pass through. */
  function Prepend(xs: seq<Record>, o: Option<Result<seq<Record>, Error>>): Option<Result<seq<Record>, Error>> {
    match o
    case Some(Success(ys)) => Some(Success(xs + ys))
    case _ => o
  }

  lemma PrependAssoc(xs: seq<Record>, ys: seq<Record>, o: Option<Result<seq<Record>, Error>>)
    ensures Prepend(xs, Prepend(ys, o)) == Prepend(xs + ys, o)
    ensures Prepend([], o) == o
  {
    match o
    case Some(Success(zs)) =>
      assert (xs + ys) + zs == xs + (ys + zs);
      assert [] + zs == zs;
    case _ =>
  }

  /**
   * The loop's outcome from `url` when it is allowed at most `fuel` page
   * reads: `None` if the bound is reached first, else the records of all
   * pages in order or the first exception.
   */
  function Follow(net: Network, url: Option<string>, fuel: nat): Option<Result<seq<Record>, Error>>
    decreases fuel
  {
    if !Truthy(url) then Some(Success([]))
    else if fuel == 0 then None
    else
      match Step(net, url.value)
      case Failure(e) => Some(Failure(e))
      case Success(p) => Prepend(p.results, Follow(net, p.next, fuel - 1))
  }

  /** The `next` chain from `url` reaches a falsy link or an error after finitely many pages. */
  ghost predicate Ends(net: Network, url: string) {
    exists fuel: nat :: Follow(net, Some(url), fuel).Some?
  }

  /** Once a bound suffices, every larger bound gives the same outcome. */
  lemma {:induction false} FollowMonotone(net: Network, url: Option<string>, n: nat, m: nat)
    requires Follow(net, url, n).Some? && n <= m
    ensures Follow(net, url, m) == Follow(net, url, n)
    decreases n
  {
    if Truthy(url) {
      match Step(net, url.value)
      case Failure(_) =>
      case Success(p) =>
        FollowMonotone(net, p.next, n - 1, m - 1);
    }
  }

  /**
   * One pass of the loop on a run `total` that is `acc` followed by the
   * bounded run from `url`: a failing read ends `total` with that error; a
   * successful one moves the page's records into `acc` and goes on from
   * the page's `next` with one read fewer.
   */
  lemma FollowOnce(net: Network, url: Option<string>, fuel: nat, acc: seq<Record>, total: Option<Result<seq<Record>, Error>>)
    requires Truthy(url) && Follow(net, url, fuel).Some?
    requires total == Prepend(acc, Follow(net, url, fuel))
    ensures fuel > 0
    ensures Step(net, url.value).Failure? ==> total == Some(Failure(Step(net, url.value).error))
    ensures Step(net, url.value).Success? ==>
              var p := Step(net, url.value).value;
              && Follow(net, p.next, fuel - 1).Some?
              && total == Prepend(acc + p.results, Follow(net, p.next, fuel - 1))
  {
    match Step(net, url.value)
    case Failure(_) =>
    case Success(p) =>
      PrependAssoc(acc, p.results, Follow(net, p.next, fuel - 1));
  }

  /** The loop's exit: on a falsy `url` the run `total` is the records gathered so far. */
  lemma FollowDone(net: Network, url: Option<string>, fuel: nat, acc: seq<Record>, total: Option<Result<seq<Record>, Error>>)
    requires !Truthy(url) && total == Prepend(acc, Follow(net, url, fuel))
    ensures total == Some(Success(acc))
  {
    assert acc + [] == acc;
  }

  /** What the unbounded loop returns: the outcome under any sufficient bound. */
  ghost function Walk(net: Network, url: string): Result<seq<Record>, Error>
    requires Ends(net, url)
  {
    var fuel: nat :| Follow(net, Some(url), fuel).Some?;
    Follow(net, Some(url), fuel).value
  }

  lemma WalkFollow(net: Network, url: string, n: nat)
    requires Follow(net, Some(url), n).Some?
    ensures Ends(net, url) && Walk(net, url) == Follow(net, Some(url), n).value
  {
    var fuel: nat :| Follow(net, Some(url), fuel).Some? && Walk(net, url) == Follow(net, Some(url), fuel).value;
    if fuel <= n {
      FollowMonotone(net, Some(url), fuel, n);
    } else {
      FollowMonotone(net, Some(url), n, fuel);
    }
  }

  /** The URLs the loop requests, in order, within `fuel` page reads. */
  function Requests(net: Network, url: Option<string>, fuel: nat): seq<string>
    decreases fuel
  {
    if !Truthy(url) || fuel == 0 then []
    else
      match Step(net, url.value)
      case Failure(_) => [url.value]
      case Success(p) => [url.value] + Requests(net, p.next, fuel - 1)
  }

  /** The records of the pages at `urls`, concatenated in order. */
  function Gathered(net: Network, urls: seq<string>): seq<Record> {
    if urls == [] then []
    else
      (match Step(net, urls[0]) case Success(p) => p.results case Failure(_) => []) + Gathered(net, urls[1..])
  }

  /** The number of records on the pages at `urls`, summed page by page. */
  function PageCount(net: Network, urls: seq<string>): nat {
    if urls == [] then 0
    else
      (match Step(net, urls[0]) case Success(p) => |p.results| case Failure(_) => 0) + PageCount(net, urls[1..])
  }

  /** The length of a run's result is the sum of its pages' lengths. */
  lemma {:induction false} GatheredLength(net: Network, urls: seq<string>)
    ensures |Gathered(net, urls)| == PageCount(net, urls)
  {
    if urls != [] {
      GatheredLength(net, urls[1..]);
    }
  }

  /**
   * The request chain: the first request is `url` itself; every request
   * is a non-empty URL; and each later request is the `next` of the page
   * read just before it, which read without error.
   */
  lemma {:induction false} RequestChain(net: Network, url: Option<string>, fuel: nat)
    ensures var reqs := Requests(net, url, fuel);
            && (Truthy(url) && fuel > 0 <==> reqs != [])
            && (reqs != [] ==> reqs[0] == url.value)
            && (forall i :: 0 <= i < |reqs| ==> reqs[i] != "")
            && (forall i :: 0 <= i < |reqs| - 1 ==> Step(net, reqs[i]).Success? && Step(net, reqs[i]).value.next == Some(reqs[i + 1]))
    decreases fuel
  {
    if Truthy(url) && fuel > 0 {
      match Step(net, url.value)
      case Failure(_) =>
      case Success(p) =>
        RequestChain(net, p.next, fuel - 1);
        var rest := Requests(net, p.next, fuel - 1);
        assert Requests(net, url, fuel) == [url.value] + rest;
    }
  }

  /**
   * A run that succeeds read every requested page without error, stopped
   * at the first page whose `next` is falsy, and returns the records of all
   * pages in page order, nothing dropped or reordered.
   */
  lemma {:induction false} FollowSucceeds(net: Network, url: Option<string>, fuel: nat, rs: seq<Record>)
    requires Follow(net, url, fuel) == Some(Success(rs))
    ensures var reqs := Requests(net, url, fuel);
            && (forall i :: 0 <= i < |reqs| ==> Step(net, reqs[i]).Success?)
            && (reqs != [] ==> !Truthy(Step(net, reqs[|reqs| - 1]).value.next))
            && rs == Gathered(net, reqs)
    decreases fuel
  {
    if Truthy(url) {
      match Step(net, url.value)
      case Failure(_) =>
      case Success(p) =>
        var rest :| Follow(net, p.next, fuel - 1) == Some(Success(rest));
        FollowSucceeds(net, p.next, fuel - 1, rest);
        var reqs := Requests(net, url, fuel);
        assert reqs == [url.value] + Requests(net, p.next, fuel - 1);
        assert reqs[1..] == Requests(net, p.next, fuel - 1);
    }
  }

  /**
   * A run that fails returns the exception of the last page it requested,
   * every earlier page having read without error; no records are returned.
   */
  lemma {:induction false} FollowFails(net: Network, url: Option<string>, fuel: nat, e: Error)
    requires Follow(net, url, fuel) == Some(Failure(e))
    ensures var reqs := Requests(net, url, fuel);
            && reqs != []
            && Step(net, reqs[|reqs| - 1]) == Failure(e)
            && forall i :: 0 <= i < |reqs| - 1 ==> Step(net, reqs[i]).Success?
    decreases fuel
  {
    RequestChain(net, url, fuel);
    match Step(net, url.value)
    case Failure(_) =>
    case Success(p) =>
      FollowFails(net, p.next, fuel - 1, e);
      assert Requests(net, url, fuel) == [url.value] + Requests(net, p.next, fuel - 1);
  }

  /** The loop of `fetch_data` / `fetch_json`, from its first URL. */
  method FetchPages(net: Network, start: string) returns (r: Result<seq<Record>, Error>)
    requires Ends(net, start)
    ensures r == Walk(net, start)
  {
    var acc: seq<Record> := [];
    var url: Option<string> := Some(start);
    ghost var fuel: nat :| Follow(net, url, fuel).Some?;
    WalkFollow(net, start, fuel);
    ghost var total := Follow(net, url, fuel);
    PrependAssoc([], [], total);
    while Truthy(url)
      invariant Follow(net, url, fuel).Some?
      invariant total == Prepend(acc, Follow(net, url, fuel))
      decreases fuel
    {
      FollowOnce(net, url, fuel, acc, total);
      var reply := net(url.value);
      if !StatusOk(reply.status) {
        return Failure(HttpError(reply.status, url.value));
      }
      if reply.body.NotJson? {
        return Failure(InvalidJson(url.value));
      }
      if reply.body.results.None? {
        return Failure(MissingResults(url.value));
      }
      var page := Page(reply.body.results.value, NextOf(reply.body.next));
      acc := acc + page.results;
      url := page.next;
      fuel := fuel - 1;
    }
    FollowDone(net, url, fuel, acc, total);
    r := Success(acc);
  }

  /** Two pages of 5 and 3 records: the run returns all 8, first page first. */
  lemma TwoPages(net: Network, first: string, second: string, a: seq<Record>, b: seq<Record>)
    requires first != "" && second != ""
    requires net(first) == Reply(200, Object(Some(a), Link(second)))
    requires net(second) == Reply(200, Object(Some(b), JsonNull))
    requires |a| == 5 && |b| == 3
    ensures Ends(net, first) && Walk(net, first) == Success(a + b) && |Walk(net, first).value| == 8
  {
    assert b + [] == b;
    assert Follow(net, Some(second), 1) == Some(Success(b));
    assert Follow(net, Some(first), 2) == Some(Success(a + b));
    WalkFollow(net, first, 2);
  }
}
