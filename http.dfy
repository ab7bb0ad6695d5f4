/** What an adapter's `requests.get(...)` call hands back, with the body already decoded. */
module Http {
  import opened Wrappers
  import opened Json

  datatype HttpResponse =
    | Unreachable                               // `requests.get` raised (connection error, timeout)
    | Response(status: int, body: Option<Json>) // `body` is `None` when `response.json()` fails

  /** The statuses for which `response.raise_for_status()` raises `HTTPError`. */
  predicate IsHttpError(status: int) {
    400 <= status < 600
  }
}
