/**
 * What the client hands to the HTTP library and what comes back. The exchange
 * itself is done by a library and is not modelled: its result is a parameter.
 */
module Http {
  import Json

  /** One request as the session sends it. */
  datatype Request = Request(verb: string, url: string, headers: map<string, string>, body: Json.Dict)

  /**
   * The outcome of sending a request: a 2xx reply whose body decoded to JSON,
   * a reply whose status made `raise_for_status` fail (with the body text and
   * the reason phrase the two libraries report), or any other error of the
   * HTTP library's own family (`requests.RequestException`,
   * `aiohttp.ClientError`), such as a refused connection. Exceptions outside
   * those families escape the client and are not outcomes here.
   */
  datatype Outcome =
    | Completed(body: Json.Value)
    | HttpError(status: int, text: string, reason: string)
    | TransportFailure(description: string)
}
