/**
 * The error taxonomy (src/XiocaAPI/__init__.py:33-36) and the translation of a
 * request outcome into a decoded body or a raised error, for the synchronous
 * client (:88-96) and the asynchronous one (:124-130).
 */
module Errors {
  import opened Wrappers
  import Json
  import opened Http

  /** The exception classes of the library. */
  datatype ErrorKind = APIError | AuthenticationError | PermissionError | NotFoundError

  /** The base class of each exception class within the library. */
  function Parent(k: ErrorKind): (p: Option<ErrorKind>)
    ensures p.Some? ==> Depth(p.value) < Depth(k)
  {
    if k == APIError then None else Some(APIError)
  }

  function Depth(k: ErrorKind): nat
  {
    if k == APIError then 0 else 1
  }

  /** `issubclass(k, base)`, following the class hierarchy upwards. */
  predicate IsA(k: ErrorKind, base: ErrorKind)
    ensures IsA(k, base) ==> base == k || base == APIError
    decreases Depth(k)
  {
    k == base || (Parent(k).Some? && IsA(Parent(k).value, base))
  }

  /** A raised error, with what its message carries. */
  datatype ApiError =
    | MissingKey                           // no API key at construction
    | Unauthorized                         // HTTP 401
    | Forbidden                            // HTTP 403
    | NotFound(detail: string)             // HTTP 404, with the detail text
    | HttpFailure(status: int, detail: string)
    | ConnectionFailure(description: string)

  /** The class an error is raised as. */
  function Kind(e: ApiError): (k: ErrorKind)
    ensures IsA(k, APIError)
    ensures k == AuthenticationError <==> e.MissingKey? || e.Unauthorized?
  {
    match e
    case MissingKey => AuthenticationError
    case Unauthorized => AuthenticationError
    case Forbidden => PermissionError
    case NotFound(_) => NotFoundError
    case HttpFailure(_, _) => APIError
    case ConnectionFailure(_) => APIError
  }

  /** The error raised for an HTTP error status, with `detail` as the reply's text. */
  function Classify(status: int, detail: string): (e: ApiError)
    ensures Kind(e) == AuthenticationError <==> status == 401
    ensures Kind(e) == PermissionError <==> status == 403
    ensures Kind(e) == NotFoundError <==> status == 404
    ensures Kind(e) == APIError <==> status !in {401, 403, 404}
    ensures e.NotFound? ==> e.detail == detail
    ensures e.HttpFailure? ==> e.status == status && e.detail == detail
    ensures e != MissingKey && !e.ConnectionFailure?
  {
    if status == 401 then Unauthorized
    else if status == 403 then Forbidden
    else if status == 404 then NotFound(detail)
    else HttpFailure(status, detail)
  }

  /** The synchronous `_request` after dispatch: the detail is the reply's body text. */
  function SettleSync(o: Outcome): (r: Result<Json.Value, ApiError>)
    ensures r.Success? <==> o.Completed?
    ensures r.Success? ==> r.value == o.body
    ensures o.HttpError? ==> r.error == Classify(o.status, o.text)
    ensures o.TransportFailure? ==> r.error == ConnectionFailure(o.description) && Kind(r.error) == APIError
  {
    match o
    case Completed(body) => Success(body)
    case HttpError(status, text, _) => Failure(Classify(status, text))
    case TransportFailure(description) => Failure(ConnectionFailure(description))
  }

  /** The asynchronous `_request` after dispatch: the detail is the reason phrase. */
  function SettleAsync(o: Outcome): (r: Result<Json.Value, ApiError>)
    ensures r.Success? <==> o.Completed?
    ensures r.Success? ==> r.value == o.body
    ensures o.HttpError? ==> r.error == Classify(o.status, o.reason)
    ensures o.TransportFailure? ==> r.error == ConnectionFailure(o.description) && Kind(r.error) == APIError
  {
    match o
    case Completed(body) => Success(body)
    case HttpError(status, _, reason) => Failure(Classify(status, reason))
    case TransportFailure(description) => Failure(ConnectionFailure(description))
  }

  /** Every exception the library raises is an `APIError`. */
  lemma EveryKindIsAPIError(k: ErrorKind)
    ensures IsA(k, APIError)
  {
  }

  /** The three special classes are unrelated to one another. */
  lemma SubkindsUnrelated(k: ErrorKind, base: ErrorKind)
    requires k != base
    ensures IsA(k, base) <==> base == APIError
  {
  }

  /**
   * The two clients agree on success, on the decoded body and on the class of
   * every error; they differ only in the detail text of 404 and other statuses.
   */
  lemma ClientsAgree(o: Outcome)
    ensures SettleSync(o).Success? <==> SettleAsync(o).Success?
    ensures SettleSync(o).Success? ==> SettleSync(o).value == SettleAsync(o).value
    ensures SettleSync(o).Failure? ==> Kind(SettleSync(o).error) == Kind(SettleAsync(o).error)
    ensures o.HttpError? && o.status !in {401, 403} && o.text != o.reason ==>
              SettleSync(o) != SettleAsync(o)
  {
  }
}
