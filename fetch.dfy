/**
 * HTTP as the crawlers see it: `requests.get` either raises (connection
 * error, timeout) or returns a status and a parsed body;
 * `raise_for_status()` raises on a 4xx or 5xx status.
 */
module Fetch {

  datatype Response<+T> = Response(status: int, body: T) | RequestFailed

  /** `raise_for_status()` raises for client and server errors. */
  predicate RaisesForStatus(status: int) {
    400 <= status < 600
  }

  /** The body of a response that got past `raise_for_status()`. */
  predicate Usable<T>(r: Response<T>) {
    r.Response? && !RaisesForStatus(r.status)
  }
}
