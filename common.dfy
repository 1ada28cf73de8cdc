/** Shared result wrappers and the error conditions the utility can raise. */
module Common {

  datatype Option<+T> = None | Some(value: T)

  /** The outcome of a call that returns a value or raises. */
  datatype Result<+R, +E> = Success(value: R) | Failure(error: E)

  /** The outcome of a call that returns nothing or raises. */
  datatype Outcome<+E> = Pass | Fail(error: E)

  /** The exceptions the modelled code can raise, one variant per raise site. */
  datatype Error =
    /** `raise_for_status` on a 4xx or 5xx reply. */
    | HttpError(status: int, url: string)
    /** `response.json()` on a body that is not JSON. */
    | InvalidJson(url: string)
    /** `data['results']` on a JSON body without that key. */
    | MissingResults(url: string)
    /** Reading an attribute that `__init__` never assigned. */
    | MissingAttribute(name: string)
    /** `DataFrame.drop` with `errors='raise'`: the labels that are not columns. */
    | ColumnsNotFound(labels: seq<string>)
    /** `get_client` on a locator that is neither a URL nor an `.xlsx` path. */
    | UnknownSourceFormat
    /** `pd.read_excel` on a file it cannot open or parse. */
    | SourceLoadError(path: string)
}
