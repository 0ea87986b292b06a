/**
 * What every SLI source shares: the error a source raises, the time range a source is asked
 * about and the pagination record it answers with.
 */
module SourceBase {
  import opened Wrappers

  /**
   * `SourceError(message)` is the error the service turns into a client-facing problem;
   * `Crash(exception)` names any other Python exception the code would raise.
   */
  datatype Error = SourceError(message: string) | Crash(exception: string)

  /** A time range as its two instants, in whole seconds since the epoch. */
  datatype TimeRange = TimeRange(start: int, end: int)

  /** A page description: the page number (when recorded), the page size and the next page. */
  datatype Pagination = Pagination(page: Option<int>, perPage: int, nextNum: Option<int>)

  /** The time series values a source hands back: an instant and a value. */
  type Reading = (int, real)
}
