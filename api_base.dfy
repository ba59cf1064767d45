/** The adapter contract shared by the provider clients and their error
    type (api_clients/base.py). */
module ApiBase {
  import opened Wrappers
  import opened Json

  /** `APIClientError(message, provider, status_code=None)`. */
  datatype ApiClientError = ApiClientError(message: string, provider: string, statusCode: Option<int>)

  /** The constructor, with the status code defaulting to None. */
  function ClientError(message: string, provider: string, statusCode: Option<int> := None): (e: ApiClientError)
    ensures e.message == message && e.provider == provider && e.statusCode == statusCode
  {
    ApiClientError(message, provider, statusCode)
  }

  /** The three operations every adapter implements. */
  datatype Operation = Trigger | CheckStatus | Download

  /** What a call into a provider SDK gives back: a value, or an exception
      with its text. */
  datatype SdkCall<+T> = Threw(detail: string) | Returned(value: T)

  /** The documented shape of a `check_status` result: it carries a status
      and a boolean `is_ready`. */
  predicate IsStatusResult(m: Object) {
    "status" in m && "is_ready" in m && m["is_ready"].Bool?
  }

  /** The text used for `str(e)` when a response body is not JSON; the real
      decoder's message is not part of this model. */
  const NotJsonText := "response body is not valid JSON"

  /** `data[:limit]` applied when `limit` is truthy and below `len(data)`:
      a positive limit keeps that many leading items, a negative one drops
      that many trailing items. */
  function ApplyLimit<T>(data: seq<T>, limit: Option<int>): (r: seq<T>)
    ensures limit.None? || limit.value == 0 ==> r == data
    ensures limit.Some? && limit.value > 0 ==> r == data[..if limit.value < |data| then limit.value else |data|]
    ensures limit.Some? && limit.value < 0 ==> r == data[..if -limit.value < |data| then |data| + limit.value else 0]
    ensures |r| <= |data| && r == data[..|r|]
  {
    if limit.Some? && limit.value != 0 && |data| > limit.value then
      if limit.value >= 0 then data[..limit.value]
      else if -limit.value < |data| then data[..|data| + limit.value]
      else []
    else data
  }
}
