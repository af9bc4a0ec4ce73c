// What the sync engine can throw. Sync errors carry a code from the
// engine's own catalogue; the other kinds are the raw errors of the two
// client libraries and the plain JavaScript errors the code can raise.
module Errors {
  import opened Wrappers

  datatype NotionApiCode =
    | InvalidRequest | Unauthorized | DatabaseNotFound | PageNotFound
    | RateLimit | InternalServerError | ServiceUnavailable | UnknownError

  datatype GoogleApiCode =
    | UnknownError | InvalidRequest | InvalidCredentials | RateLimit
    | UserCalendarUsageLimit | Forbidden | NotFound
    | GoneUpdatedMinTooLongAgo | Gone | InternalServerError

  datatype SyncCode =
    | NotionApi(notion: NotionApiCode)
    | NotionValidationError
    | GoogleApi(google: GoogleApiCode)
    | GoogleCallbackUrlNotFound

  /**
   * What the path `error.errors[0].reason` of a Google error body leads to:
   * no `error` object, no `errors` list, an empty list, or a first entry
   * with its `reason` (`None` when the entry has none).
   */
  datatype FirstError =
    | NoErrorObject
    | NoErrorList
    | EmptyErrorList
    | FirstEntry(reason: Option<string>)

  /** The body of a Google error response: its `message` and its first error entry. */
  datatype GaxiosData = GaxiosData(message: Option<string>, firstError: FirstError)

  datatype GaxiosResponse = GaxiosResponse(status: Option<int>, data: GaxiosData)

  datatype Failure =
    | SyncFailure(code: SyncCode, detail: string)          // SyncError and its subclasses
    | NotionResponseError(status: int, message: string)    // APIResponseError of the Notion client
    | GaxiosError(response: Option<GaxiosResponse>)        // GaxiosError of the Google client
    | TypeError(message: string)                           // reading through undefined, calling a missing function
    | PlainError(message: string)                          // `new Error(message)`
    | RangeError(message: string)                          // `toISOString()` of an invalid date
    | TimeoutError                                         // the run exceeded its deadline
    | DatabaseError                                        // a database write was rejected

  predicate IsSyncError(f: Failure)
  {
    f.SyncFailure?
  }

  /** The code of a sync error raised by the Notion client wrapper. */
  function NotionApiFailure(code: NotionApiCode): (f: Failure)
    ensures IsSyncError(f) && f.code == NotionApi(code)
  {
    SyncFailure(NotionApi(code), "")
  }

  /** The code of a sync error raised by the Google client wrapper. */
  function GoogleApiFailure(code: GoogleApiCode): (f: Failure)
    ensures IsSyncError(f) && f.code == GoogleApi(code)
  {
    SyncFailure(GoogleApi(code), "")
  }

  /** The TypeError of awaiting `rule.callback(...)` on a rule that has no callback. */
  const MissingCallback: Failure := TypeError("filterRule.callback is not a function")
}
