/**
 * Values exchanged with the remote player API and with axios, the HTTP
 * library the client uses. JavaScript's `null` and `undefined` are both
 * `None`; a string is falsy when it is absent or empty.
 */
module Http {

  datatype Option<+T> = None | Some(value: T)

  /** JavaScript truthiness of an optional string. */
  predicate Truthy(s: Option<string>)
  {
    s.Some? && s.value != ""
  }

  /** The `error` object of a Web API error body; its `message` may be absent. */
  datatype ApiError = ApiError(message: Option<string>)

  /**
   * An HTTP response as axios hands it over. `error` is `data.error`: `None`
   * when the body has no `error` member or there is no body at all, which the
   * controller treats alike.
   */
  datatype HttpResponse = HttpResponse(status: int, error: Option<ApiError>, statusText: Option<string>)

  /** What the player client returns to the controller: `null` or a response. */
  datatype Response = NoResponse | Resp(response: HttpResponse)

  /** The error axios throws: it carries the response when the server answered. */
  datatype AxiosError = AxiosError(response: Option<HttpResponse>)

  /** How an axios request settles. */
  datatype AxiosResult = Fulfilled(response: HttpResponse) | Rejected(error: AxiosError)
}
